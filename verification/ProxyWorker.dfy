/** One route's worker: it sends what the router hands it, retries, and on shutdown sends what is
    still queued for as long as the grace period lasts. */
module ProxyWorker {
  import opened Basics
  import opened Tally

  const U32_MAX: nat := 0xFFFF_FFFF
  const FIRST_DELAY: nat := 200
  const MAX_DELAY: nat := 30_000

  /** A filtered request; one that matched nothing would be empty. */
  datatype Batch = Batch(id: nat, resources: nat)

  predicate Empty(b: Batch) {
    b.resources == 0
  }

  // Sending one batch

  /** The upstream's answer. A retryable one may ask for a delay of its own, in milliseconds. */
  datatype Answer = Accepts | Rejects | TryLater(after: nat)

  /** What one attempt meets: the token may be cancelled before it, during it, or while waiting for
      the next one. */
  datatype Try = Try(before: bool, during: bool, answer: Answer, waiting: bool)

  datatype Verdict = Sent | Failed | Cancelled

  function Attempts(retryMax: nat): nat {
    if retryMax < U32_MAX then retryMax + 1 else U32_MAX
  }

  function Max(a: nat, b: nat): nat {
    if a < b then b else a
  }

  function Min(a: nat, b: nat): nat {
    if a < b then a else b
  }

  function Doubled(delay: nat): nat {
    Min(delay * 2, MAX_DELAY)
  }

  function Pow2(i: nat): nat {
    if i == 0 then 1 else 2 * Pow2(i - 1)
  }

  /** The waiting time after attempt `i` when the upstream does not ask for more. */
  function Backoff(i: nat): nat {
    Min(FIRST_DELAY * Pow2(i), MAX_DELAY)
  }

  lemma {:induction false} BackoffDoubles(i: nat)
    ensures Doubled(Backoff(i)) == Backoff(i + 1)
  {
    assert FIRST_DELAY * Pow2(i + 1) == FIRST_DELAY * Pow2(i) * 2;
  }

  /** The attempt fails in a way that leads to a wait and another attempt. */
  predicate GoesOn(t: Try) {
    !t.before && !t.during && t.answer.TryLater? && !t.waiting
  }

  /** The attempt is made, not interrupted, and answered so. */
  predicate Gets(t: Try, answer: Answer) {
    !t.before && !t.during && t.answer == answer
  }

  predicate Retryable(t: Try) {
    !t.before && !t.during && t.answer.TryLater?
  }

  /** How sending ends when attempt `k` is the next. */
  function Ends(retryMax: nat, tries: nat -> Try, k: nat): Verdict
    decreases Attempts(retryMax) - k
  {
    var t := tries(k);
    if t.before || t.during then Cancelled
    else if t.answer == Accepts then Sent
    else if t.answer == Rejects || k + 1 >= Attempts(retryMax) then Failed
    else if t.waiting then Cancelled
    else Ends(retryMax, tries, k + 1)
  }

  /** Every try before `k` is followed by another. */
  predicate LeadsTo(tries: nat -> Try, k: nat) {
    forall i | 0 <= i < k :: GoesOn(tries(i))
  }

  /** How sending ends when the tries up to `n` lead on to one another, told from try `n` alone: it is
      sent when accepted, whichever try that is, up to and including the last; `retryMax` tries may be
      retried, one less at the top of the range. */
  lemma {:induction false} EndsAt(retryMax: nat, tries: nat -> Try, k: nat, n: nat)
    requires k <= n <= retryMax <= U32_MAX && (retryMax == U32_MAX ==> n < U32_MAX)
    requires forall i | k <= i < n :: GoesOn(tries(i))
    ensures Gets(tries(n), Accepts) ==> Ends(retryMax, tries, k) == Sent
    ensures Gets(tries(n), Rejects) ==> Ends(retryMax, tries, k) == Failed
    ensures tries(n).before || tries(n).during ==> Ends(retryMax, tries, k) == Cancelled
    ensures Retryable(tries(n)) && n + 1 == Min(retryMax + 1, U32_MAX) ==> Ends(retryMax, tries, k) == Failed
    ensures Retryable(tries(n)) && tries(n).waiting && n + 1 < Min(retryMax + 1, U32_MAX) ==>
              Ends(retryMax, tries, k) == Cancelled
    decreases n - k
  {
    if k < n {
      EndsAt(retryMax, tries, k + 1, n);
    }
  }

  /** `exports` counts the attempts handed to the client; `waits` the pauses between them. The last try
      that was begun is number `|waits|`, and what it met alone decides how sending ends. */
  method SendWithRetry(retryMax: nat, tries: nat -> Try) returns (verdict: Verdict, exports: nat, waits: seq<nat>)
    requires retryMax <= U32_MAX
    ensures verdict == Ends(retryMax, tries, 0)
    ensures |waits| <= retryMax && (retryMax == U32_MAX ==> |waits| < U32_MAX)
    ensures exports == |waits| + if tries(|waits|).before then 0 else 1
    ensures forall i | 0 <= i < |waits| ::
              && GoesOn(tries(i)) && waits[i] >= Backoff(i) && waits[i] >= tries(i).answer.after
              && (waits[i] == Backoff(i) || waits[i] == tries(i).answer.after)
    ensures verdict == Sent <==> Gets(tries(|waits|), Accepts)
    ensures verdict == Failed <==>
            || Gets(tries(|waits|), Rejects)
            || (Retryable(tries(|waits|)) && exports == Min(retryMax + 1, 0xFFFF_FFFF))
    ensures verdict == Cancelled <==>
            var last := tries(|waits|);
            last.before || last.during || (Retryable(last) && last.waiting && exports < Min(retryMax + 1, 0xFFFF_FFFF))
    ensures forall k: nat | k <= retryMax < U32_MAX && LeadsTo(tries, k) && Gets(tries(k), Accepts) ::
              verdict == Sent && exports == k + 1
  {
    var delay := FIRST_DELAY;
    exports, waits := 0, [];
    var attempts := Attempts(retryMax);
    assert Pow2(0) == 1;
    for attempt := 0 to attempts
      invariant exports == attempt == |waits| && delay == Backoff(attempt)
      invariant forall i | 0 <= i < |waits| :: GoesOn(tries(i)) && waits[i] == Max(Backoff(i), tries(i).answer.after)
      invariant Ends(retryMax, tries, 0) == Ends(retryMax, tries, attempt)
      invariant attempt == attempts ==> false
    {
      var t := tries(attempt);
      if t.before {
        return Cancelled, exports, waits;
      }
      exports := exports + 1;
      if t.during {
        return Cancelled, exports, waits;
      }
      match t.answer {
        case Accepts => return Sent, exports, waits;
        case Rejects => return Failed, exports, waits;
        case TryLater(after) =>
          if attempt + 1 >= attempts {
            return Failed, exports, waits;
          }
          if t.waiting {
            return Cancelled, exports, waits;
          }
          waits := waits + [Max(delay, after)];
          BackoffDoubles(attempt);
          delay := Doubled(delay);
      }
    }
    verdict := Failed;
  }

  /** Waiting times never shrink and stop growing at thirty seconds. */
  lemma {:induction false} BackoffGrows(i: nat, j: nat)
    requires i <= j
    ensures 200 == Backoff(0) <= Backoff(i) <= Backoff(j) <= 30_000
    ensures Backoff(i + 1) == Backoff(i) * 2 || (Backoff(i) * 2 > 30_000 && Backoff(i + 1) == 30_000)
    decreases j - i
  {
    BackoffDoubles(i);
    assert Pow2(0) == 1;
    if i < j {
      BackoffGrows(i, j - 1);
      BackoffDoubles(j - 1);
    } else {
      PowPositive(i);
    }
  }

  lemma {:induction false} PowPositive(i: nat)
    ensures Pow2(i) >= 1
  {
    if i > 0 {
      PowPositive(i - 1);
    }
  }

  // The worker among notifiers, shutdown and the drain deadline

  datatype Phase =
    | Idle
    | Sending(b: Batch, attempt: nat)
    | Waiting(b: Batch, attempt: nat)
    | Leaving(interrupted: Option<Batch>)
    | Draining(interrupted: Option<Batch>)
    | Flushing(b: Batch)
    | Stopped

  datatype Outcome = WasSent | WasFailed | WasAbandoned | WasSkipped

  datatype Handled = Handled(b: Batch, outcome: Outcome)

  datatype Offer = Offer(b: Batch, taken: bool)

  /** `offers` and `handled` are histories: what the router tried to hand over, and what became of
      the batches in the order the worker was done with them. */
  datatype Worker = Worker(phase: Phase, queue: seq<Batch>, receiving: bool, cancelled: bool, late: bool,
                           sent: nat, failed: nat, dropped: nat, abandoned: nat,
                           offers: seq<Offer>, handled: seq<Handled>)

  datatype Config = Config(capacity: nat, retryMax: nat)

  const START: Worker := Worker(Idle, [], true, false, false, 0, 0, 0, 0, [], [])

  datatype Step =
    | Notify(b: Batch)
    | Cancel
    | Receive
    | ChannelClosed
    | SeeCancel
    | Answered(answer: Answer)
    | Interrupted
    | Wake
    | CloseChannel
    | TakeNext
    | Deadline
    | Flushed(answer: Answer)
    | FlushCut
    | Finish

  predicate Enabled(s: Worker, step: Step) {
    match step
    case Notify(_) => true
    case Cancel => true
    case Receive => s.phase.Idle? && !s.cancelled && s.queue != []
    case ChannelClosed => s.phase.Idle? && !s.cancelled && s.queue == []
    case SeeCancel => s.phase.Idle? && s.cancelled
    case Answered(_) => s.phase.Sending? && !s.cancelled
    case Interrupted => (s.phase.Sending? || s.phase.Waiting?) && s.cancelled
    case Wake => s.phase.Waiting?
    case CloseChannel => s.phase.Leaving?
    case TakeNext => s.phase.Draining? && (s.phase.interrupted.Some? || s.queue != [])
    case Deadline => s.phase.Draining? || s.phase.Flushing?
    case Flushed(_) => s.phase.Flushing? && !s.late
    case FlushCut => s.phase.Flushing? && s.late
    case Finish => s.phase.Draining? && s.phase.interrupted.None? && s.queue == []
  }

  function Done(s: Worker, b: Batch, outcome: Outcome, phase: Phase): Worker {
    var t := s.(phase := phase, handled := s.handled + [Handled(b, outcome)]);
    match outcome
    case WasSent => t.(sent := s.sent + 1)
    case WasFailed => t.(failed := s.failed + 1)
    case WasAbandoned => t.(abandoned := s.abandoned + 1)
    case WasSkipped => t
  }

  function AfterAnswer(s: Worker, cfg: Config, answer: Answer): Worker
    requires s.phase.Sending?
  {
    var b, attempt := s.phase.b, s.phase.attempt;
    match answer
    case Accepts => Done(s, b, WasSent, Idle)
    case Rejects => Done(s, b, WasFailed, Idle)
    case TryLater(_) =>
      if attempt + 1 >= Attempts(cfg.retryMax) then Done(s, b, WasFailed, Idle) else s.(phase := Waiting(b, attempt))
  }

  /** The interrupted batch comes before the queue; after the deadline the rest is abandoned. */
  function AfterTake(s: Worker): Worker
    requires Enabled(s, TakeNext)
  {
    var b := if s.phase.interrupted.Some? then s.phase.interrupted.value else s.queue[0];
    var t := if s.phase.interrupted.Some? then s else s.(queue := s.queue[1..]);
    if Empty(b) then Done(t, b, WasSkipped, Draining(None))
    else if s.late then Done(t, b, WasAbandoned, Draining(None))
    else t.(phase := Flushing(b))
  }

  function Next(s: Worker, cfg: Config, step: Step): Worker
    requires Enabled(s, step)
  {
    match step
    case Notify(b) =>
      if s.receiving && |s.queue| < cfg.capacity then s.(queue := s.queue + [b], offers := s.offers + [Offer(b, true)])
      else s.(dropped := s.dropped + 1, offers := s.offers + [Offer(b, false)])
    case Cancel => s.(cancelled := true)
    case Receive =>
      var t := s.(queue := s.queue[1..]);
      if Empty(s.queue[0]) then Done(t, s.queue[0], WasSkipped, Idle) else t.(phase := Sending(s.queue[0], 0))
    case ChannelClosed => s.(phase := Leaving(None))
    case SeeCancel => s.(phase := Leaving(None))
    case Answered(answer) => AfterAnswer(s, cfg, answer)
    case Interrupted => s.(phase := Leaving(Some(s.phase.b)))
    case Wake => s.(phase := Sending(s.phase.b, s.phase.attempt + 1))
    case CloseChannel => s.(phase := Draining(s.phase.interrupted), receiving := false)
    case TakeNext => AfterTake(s)
    case Deadline => s.(late := true)
    case Flushed(answer) => Done(s, s.phase.b, if answer == Accepts then WasSent else WasFailed, Draining(None))
    case FlushCut => Done(s, s.phase.b, WasAbandoned, Draining(None))
    case Finish => s.(phase := Stopped, dropped := s.dropped + s.abandoned)
  }

  ghost predicate AllEnabled(s: Worker, cfg: Config, steps: seq<Step>)
    decreases |steps|
  {
    steps != [] ==>
      var front := steps[..|steps| - 1];
      AllEnabled(s, cfg, front) && Enabled(Run(s, cfg, front), steps[|steps| - 1])
  }

  function Run(s: Worker, cfg: Config, steps: seq<Step>): Worker
    decreases |steps|
  {
    if steps == [] then s
    else
      var before := Run(s, cfg, steps[..|steps| - 1]);
      if Enabled(before, steps[|steps| - 1]) then Next(before, cfg, steps[|steps| - 1]) else before
  }

  // Accounts

  function Is(outcome: Outcome): Handled -> nat {
    (h: Handled) => if h.outcome == outcome then 1 else 0
  }

  function Refused(o: Offer): nat {
    if o.taken then 0 else 1
  }

  function Taken(offers: seq<Offer>): seq<Batch> {
    if offers == [] then []
    else
      var front, last := Taken(offers[..|offers| - 1]), offers[|offers| - 1];
      if last.taken then front + [last.b] else front
  }

  function Batches(handled: seq<Handled>): (batches: seq<Batch>)
    ensures |batches| == |handled|
    ensures forall i | 0 <= i < |handled| :: batches[i] == handled[i].b
  {
    seq(|handled|, i requires 0 <= i < |handled| => handled[i].b)
  }

  function Held(s: Worker): seq<Batch> {
    match s.phase
    case Sending(b, _) => [b]
    case Waiting(b, _) => [b]
    case Leaving(i) => if i.Some? then [i.value] else []
    case Draining(i) => if i.Some? then [i.value] else []
    case Flushing(b) => [b]
    case _ => []
  }

  predicate AttemptsLeft(s: Worker, cfg: Config) {
    match s.phase
    case Sending(_, k) => k < Attempts(cfg.retryMax)
    case Waiting(_, k) => k + 1 < Attempts(cfg.retryMax)
    case _ => true
  }

  /** Nothing empty is sent, failed or abandoned; nothing else is skipped. */
  predicate RightlySkipped(h: Handled) {
    h.outcome == WasSkipped <==> Empty(h.b)
  }

  ghost predicate Sound(s: Worker, cfg: Config) {
    && Taken(s.offers) == Batches(s.handled) + Held(s) + s.queue
    && s.sent == Total(s.handled, Is(WasSent))
    && s.failed == Total(s.handled, Is(WasFailed))
    && s.abandoned == Total(s.handled, Is(WasAbandoned))
    && s.dropped == Total(s.offers, Refused) + (if s.phase.Stopped? then s.abandoned else 0)
    && (s.phase.Draining? || s.phase.Flushing? || s.phase.Stopped? ==> !s.receiving)
    && (s.phase.Stopped? ==> s.queue == [])
    && (forall h | h in s.handled :: RightlySkipped(h))
    && (forall b | b in Held(s) :: s.phase.Sending? || s.phase.Waiting? || s.phase.Flushing? ==> !Empty(b))
    && (s.phase.Leaving? && s.phase.interrupted.Some? ==> !Empty(s.phase.interrupted.value))
    && AttemptsLeft(s, cfg)
  }

  lemma {:induction false} HandledMore(handled: seq<Handled>, b: Batch, outcome: Outcome)
    ensures Batches(handled + [Handled(b, outcome)]) == Batches(handled) + [b]
    ensures forall o: Outcome ::
            Total(handled + [Handled(b, outcome)], Is(o)) == Total(handled, Is(o)) + if o == outcome then 1 else 0
  {
    forall o: Outcome
      ensures Total(handled + [Handled(b, outcome)], Is(o)) == Total(handled, Is(o)) + if o == outcome then 1 else 0 {
      TotalMore(handled, Handled(b, outcome), Is(o));
    }
  }

  lemma {:induction false} OffersMore(offers: seq<Offer>, o: Offer)
    ensures Taken(offers + [o]) == if o.taken then Taken(offers) + [o.b] else Taken(offers)
    ensures Total(offers + [o], Refused) == Total(offers, Refused) + Refused(o)
  {
    assert (offers + [o])[..|offers|] == offers;
    TotalMore(offers, o, Refused);
  }

  /** Being done with the batch in hand moves it from the hand to the history. */
  lemma {:induction false} DoneSound(s: Worker, cfg: Config, b: Batch, outcome: Outcome, phase: Phase)
    requires Sound(s, cfg) && Held(s) == [b] && !s.phase.Stopped?
    requires phase == Idle || (phase == Draining(None) && !s.receiving)
    requires outcome == WasSkipped <==> Empty(b)
    ensures Sound(Done(s, b, outcome, phase), cfg)
  {
    HandledMore(s.handled, b, outcome);
    hide Total, Taken, Is;
    var t := Done(s, b, outcome, phase);
    assert Batches(s.handled) + [b] + s.queue == Batches(t.handled) + Held(t) + t.queue;
  }

  lemma {:induction false} NotifySound(s: Worker, cfg: Config, b: Batch)
    requires Sound(s, cfg)
    ensures Sound(Next(s, cfg, Notify(b)), cfg)
  {
    OffersMore(s.offers, Offer(b, s.receiving && |s.queue| < cfg.capacity));
    hide Total, Taken, Is;
    assert Batches(s.handled) + Held(s) + s.queue + [b] == Batches(s.handled) + Held(s) + (s.queue + [b]);
  }

  /** Taking the first of the queue into the hand. */
  lemma {:induction false} PopSound(s: Worker)
    requires s.queue != []
    ensures s.queue == [s.queue[0]] + s.queue[1..]
    ensures forall front: seq<Batch> :: front + [] + s.queue == front + [s.queue[0]] + s.queue[1..]
  {
  }

  lemma {:induction false} StepSound(s: Worker, cfg: Config, step: Step)
    requires Sound(s, cfg) && Enabled(s, step)
    ensures Sound(Next(s, cfg, step), cfg)
  {
    hide Total, Taken, Is, Batches;
    match step {
      case Notify(b) => NotifySound(s, cfg, b);
      case Receive => ReceiveSound(s, cfg);
      case Answered(answer) =>
        var b := s.phase.b;
        assert b in Held(s);
        if answer == Accepts {
          DoneSound(s, cfg, b, WasSent, Idle);
        } else if Next(s, cfg, step).phase.Idle? {
          DoneSound(s, cfg, b, WasFailed, Idle);
        }
      case Flushed(answer) =>
        assert s.phase.b in Held(s);
        DoneSound(s, cfg, s.phase.b, if answer == Accepts then WasSent else WasFailed, Draining(None));
      case FlushCut =>
        assert s.phase.b in Held(s);
        DoneSound(s, cfg, s.phase.b, WasAbandoned, Draining(None));
      case TakeNext => TakeSound(s, cfg);
      case _ =>
    }
  }

  lemma {:induction false} ReceiveSound(s: Worker, cfg: Config)
    requires Sound(s, cfg) && Enabled(s, Receive)
    ensures Sound(Next(s, cfg, Receive), cfg)
  {
    hide Total, Taken, Is, Batches;
    var b := s.queue[0];
    PopSound(s);
    assert Batches(s.handled) + [] + s.queue == Batches(s.handled) + [b] + s.queue[1..];
    if Empty(b) {
      HandledMore(s.handled, b, WasSkipped);
      assert Batches(s.handled) + [b] == Batches(s.handled) + [b] + [];
    } else {
      assert Attempts(cfg.retryMax) >= 1;
    }
  }

  lemma {:induction false} TakeSound(s: Worker, cfg: Config)
    requires Sound(s, cfg) && Enabled(s, TakeNext)
    ensures Sound(AfterTake(s), cfg)
  {
    hide Total, Taken, Is, Batches;
    if s.phase.interrupted.None? {
      PopSound(s);
      var b := s.queue[0];
      var t := s.(queue := s.queue[1..], phase := Draining(Some(b)));
      assert Batches(s.handled) + [] + s.queue == Batches(s.handled) + [b] + t.queue;
      assert Sound(t, cfg);
      assert AfterTake(s) == AfterTake(t);
      TakeHeldSound(t, cfg);
    } else {
      TakeHeldSound(s, cfg);
    }
  }

  lemma {:induction false} TakeHeldSound(s: Worker, cfg: Config)
    requires Sound(s, cfg) && s.phase.Draining? && s.phase.interrupted.Some?
    ensures Sound(AfterTake(s), cfg)
  {
    hide Total, Taken, Is, Batches;
    var b := s.phase.interrupted.value;
    if Empty(b) {
      DoneSound(s, cfg, b, WasSkipped, Draining(None));
    } else if s.late {
      DoneSound(s, cfg, b, WasAbandoned, Draining(None));
    }
  }

  lemma {:induction false} RunSound(cfg: Config, steps: seq<Step>)
    requires AllEnabled(START, cfg, steps)
    ensures Sound(Run(START, cfg, steps), cfg)
  {
    if steps == [] {
      assert Attempts(cfg.retryMax) >= 1;
    } else {
      RunSound(cfg, steps[..|steps| - 1]);
      StepSound(Run(START, cfg, steps[..|steps| - 1]), cfg, steps[|steps| - 1]);
    }
  }

  lemma {:induction false} OffersSplit(offers: seq<Offer>)
    ensures |offers| == |Taken(offers)| + Total(offers, Refused)
    ensures (forall o | o in offers :: !Empty(o.b)) ==> forall b | b in Taken(offers) :: !Empty(b)
  {
    if offers != [] {
      OffersSplit(offers[..|offers| - 1]);
    }
  }

  lemma {:induction false} OutcomesSplit(handled: seq<Handled>)
    ensures |handled| == Total(handled, Is(WasSent)) + Total(handled, Is(WasFailed)) +
            Total(handled, Is(WasAbandoned)) + Total(handled, Is(WasSkipped))
    ensures (forall h | h in handled :: RightlySkipped(h) && !Empty(h.b)) ==> Total(handled, Is(WasSkipped)) == 0
  {
    if handled != [] {
      OutcomesSplit(handled[..|handled| - 1]);
    }
  }

  /** When the worker has stopped, every non-empty batch that was ever notified, before, during or
      after the drain, is counted exactly once as sent, failed or dropped, an interrupted one
      included. */
  lemma {:induction false} EveryBatchCountedOnce(cfg: Config, steps: seq<Step>)
    requires AllEnabled(START, cfg, steps) && Run(START, cfg, steps).phase.Stopped?
    requires forall o | o in Run(START, cfg, steps).offers :: !Empty(o.b)
    ensures var s := Run(START, cfg, steps);
            s.sent + s.failed + s.dropped == |s.offers|
  {
    RunSound(cfg, steps);
    var s := Run(START, cfg, steps);
    OffersSplit(s.offers);
    OutcomesSplit(s.handled);
    forall h | h in s.handled ensures !Empty(h.b) {
      var i :| 0 <= i < |s.handled| && s.handled[i] == h;
      assert Taken(s.offers)[i] == h.b;
      assert Taken(s.offers)[i] in Taken(s.offers);
    }
  }

  /** Before that, the books balance at every step: with what is queued and what is in hand. */
  lemma {:induction false} BooksBalance(cfg: Config, steps: seq<Step>)
    requires AllEnabled(START, cfg, steps)
    ensures var s := Run(START, cfg, steps);
            |s.offers| == s.sent + s.failed + s.dropped + Total(s.handled, Is(WasSkipped)) + |Held(s)| + |s.queue|
                          + if s.phase.Stopped? then 0 else s.abandoned
  {
    RunSound(cfg, steps);
    var s := Run(START, cfg, steps);
    OffersSplit(s.offers);
    OutcomesSplit(s.handled);
  }

  function SentOf(handled: seq<Handled>): seq<Batch> {
    if handled == [] then []
    else
      var front, last := SentOf(handled[..|handled| - 1]), handled[|handled| - 1];
      if last.outcome == WasSent then front + [last.b] else front
  }

  lemma {:induction false} SentSubsequence(handled: seq<Handled>)
    ensures Subsequence(SentOf(handled), Batches(handled))
    ensures |SentOf(handled)| == Total(handled, Is(WasSent))
  {
    if handled != [] {
      SentSubsequence(handled[..|handled| - 1]);
      var batches := Batches(handled);
      assert batches[..|batches| - 1] == Batches(handled[..|handled| - 1]);
      var sent := SentOf(handled[..|handled| - 1]);
      assert (sent + [handled[|handled| - 1].b])[..|sent|] == sent;
    }
  }

  /** The batches the router tried to hand over, in order. */
  function Notified(offers: seq<Offer>): (batches: seq<Batch>)
    ensures |batches| == |offers|
  {
    seq(|offers|, i requires 0 <= i < |offers| => offers[i].b)
  }

  lemma {:induction false} TakenSubsequence(offers: seq<Offer>)
    ensures Subsequence(Taken(offers), Notified(offers))
  {
    if offers != [] {
      var front := offers[..|offers| - 1];
      TakenSubsequence(front);
      var all := Notified(offers);
      assert all[..|front|] == Notified(front);
      var taken := Taken(front);
      assert (taken + [offers[|front|].b])[..|taken|] == taken;
    }
  }

  /** Batches are sent in the order in which they were notified, retries, interruption and drain
      notwithstanding: what was finished is a beginning of what was accepted, and what was sent is what
      was notified with some left out. An attempt beyond the limit is never begun. */
  lemma {:induction false} SentInOrder(cfg: Config, steps: seq<Step>)
    requires AllEnabled(START, cfg, steps)
    ensures var s := Run(START, cfg, steps);
            && Subsequence(SentOf(s.handled), Notified(s.offers)) && |SentOf(s.handled)| == s.sent
            && Batches(s.handled) <= Taken(s.offers)
            && (s.phase.Sending? ==> s.phase.attempt < Attempts(cfg.retryMax))
  {
    RunSound(cfg, steps);
    var s := Run(START, cfg, steps);
    SentSubsequence(s.handled);
    TakenSubsequence(s.offers);
    assert Batches(s.handled) <= Taken(s.offers);
    hide Run, AllEnabled, Sound, Subsequence, SentOf, Taken, Batches, Notified;
    PrefixSubsequence(Batches(s.handled), Taken(s.offers));
    SubsequenceTransitive(SentOf(s.handled), Batches(s.handled), Taken(s.offers));
    SubsequenceTransitive(SentOf(s.handled), Taken(s.offers), Notified(s.offers));
  }

  lemma {:induction false} ReceivingIs(cfg: Config, steps: seq<Step>)
    requires AllEnabled(START, cfg, steps)
    ensures Run(START, cfg, steps).receiving <==> CloseChannel !in steps
  {
    hide Next, Enabled;
    if steps != [] {
      var front, last := steps[..|steps| - 1], steps[|steps| - 1];
      ReceivingIs(cfg, front);
      assert CloseChannel in steps <==> CloseChannel in front || last == CloseChannel;
      OnlyClosingStops(Run(START, cfg, front), cfg, last);
    }
  }

  lemma {:induction false} OnlyClosingStops(s: Worker, cfg: Config, step: Step)
    requires Enabled(s, step)
    ensures Next(s, cfg, step).receiving <==> s.receiving && step != CloseChannel
  {
  }

  /** A batch that is notified is queued if and only if the channel was not closed before and there is
      room; otherwise it is counted as dropped, and the queue stays. */
  lemma {:induction false} QueuedIff(cfg: Config, steps: seq<Step>, b: Batch)
    requires AllEnabled(START, cfg, steps)
    ensures var s := Run(START, cfg, steps);
            var t := Next(s, cfg, Notify(b));
            if CloseChannel !in steps && |s.queue| < cfg.capacity
            then t.queue == s.queue + [b] && t.dropped == s.dropped
            else t.queue == s.queue && t.dropped == s.dropped + 1
  {
    ReceivingIs(cfg, steps);
  }

  /** How often the upstream accepted a batch. */
  function TimesAccepted(steps: seq<Step>): nat {
    if steps == [] then 0
    else TimesAccepted(steps[..|steps| - 1])
         + if steps[|steps| - 1] in {Answered(Accepts), Flushed(Accepts)} then 1 else 0
  }

  /** The answer is the last one for its batch, and it is not accepted: it is rejected, or no attempt is
      left, or it was sent while draining. */
  predicate GivesUp(s: Worker, cfg: Config, step: Step) {
    || step == Answered(Rejects)
    || (step.Answered? && step.answer.TryLater? && s.phase.Sending? && s.phase.attempt >= cfg.retryMax)
    || (step.Answered? && step.answer.TryLater? && s.phase.Sending? && s.phase.attempt + 1 >= U32_MAX)
    || (step.Flushed? && step.answer != Accepts)
  }

  function TimesGivenUp(cfg: Config, steps: seq<Step>): nat {
    if steps == [] then 0
    else TimesGivenUp(cfg, steps[..|steps| - 1])
         + if GivesUp(Run(START, cfg, steps[..|steps| - 1]), cfg, steps[|steps| - 1]) then 1 else 0
  }

  /** A batch is counted as sent exactly when the upstream accepted it, and as failed exactly when it was
      given up. */
  lemma {:induction false} CountersMean(cfg: Config, steps: seq<Step>)
    requires AllEnabled(START, cfg, steps)
    ensures var s := Run(START, cfg, steps);
            s.sent == TimesAccepted(steps) && s.failed == TimesGivenUp(cfg, steps)
  {
    hide Next, Enabled, GivesUp;
    if steps != [] {
      CountersMean(cfg, steps[..|steps| - 1]);
      CountersStep(Run(START, cfg, steps[..|steps| - 1]), cfg, steps[|steps| - 1]);
    }
  }

  lemma {:induction false} CountersStep(s: Worker, cfg: Config, step: Step)
    requires Enabled(s, step)
    ensures var t := Next(s, cfg, step);
            && t.sent == s.sent + (if step in {Answered(Accepts), Flushed(Accepts)} then 1 else 0)
            && t.failed == s.failed + if GivesUp(s, cfg, step) then 1 else 0
  {
  }

  /** Once the worker is cancelled it begins no batch but while draining. */
  lemma {:induction false} NothingBegunLate(s: Worker, cfg: Config, step: Step)
    requires Enabled(s, step) && s.cancelled && Next(s, cfg, step).phase.Sending?
    ensures s.phase.Sending? || s.phase.Waiting?
    ensures Next(s, cfg, step).phase.b == s.phase.b
  {
  }

  /** Once the worker is cancelled nothing is sent or given up but while draining, and once the grace
      period is over nothing at all. */
  lemma {:induction false} NothingSentLate(s: Worker, cfg: Config, step: Step)
    requires Enabled(s, step) && (Next(s, cfg, step).sent != s.sent || Next(s, cfg, step).failed != s.failed)
    ensures s.cancelled ==> s.phase.Flushing? && step.Flushed?
    ensures s.phase.Flushing? ==> !s.late
  {
  }

  // Shutdown ends

  /** The next step of a cancelled worker, whatever the upstream answers. */
  function OwnStep(s: Worker, answer: Answer): Step {
    match s.phase
    case Idle => SeeCancel
    case Sending(_, _) => Interrupted
    case Waiting(_, _) => Interrupted
    case Leaving(_) => CloseChannel
    case Draining(interrupted) => if interrupted.Some? || s.queue != [] then TakeNext else Finish
    case Flushing(_) => if s.late then FlushCut else Flushed(answer)
    case Stopped => Finish
  }

  /** At most so many steps are left. */
  function StepsLeft(s: Worker): nat {
    match s.phase
    case Leaving(interrupted) => 2 * (|s.queue| + if interrupted.Some? then 1 else 0) + 2
    case Draining(interrupted) => 2 * (|s.queue| + if interrupted.Some? then 1 else 0) + 1
    case Flushing(_) => 2 * |s.queue| + 2
    case Stopped => 0
    case _ => 2 * |s.queue| + 5
  }

  lemma {:induction false} OwnStepGoesOn(s: Worker, cfg: Config, answer: Answer)
    requires s.cancelled && !s.phase.Stopped?
    ensures Enabled(s, OwnStep(s, answer))
    ensures var t := Next(s, cfg, OwnStep(s, answer)); t.cancelled && StepsLeft(t) < StepsLeft(s)
  {
  }

  function StopSteps(s: Worker, cfg: Config, answers: nat -> Answer, k: nat): seq<Step>
    decreases StepsLeft(s)
  {
    if s.phase.Stopped? || !s.cancelled then []
    else
      OwnStepGoesOn(s, cfg, answers(k));
      [OwnStep(s, answers(k))] + StopSteps(Next(s, cfg, OwnStep(s, answers(k))), cfg, answers, k + 1)
  }

  /** Once it is cancelled the worker is never stuck: by its own steps alone, one attempt for each batch,
      it stops, whatever the upstream answers. */
  lemma {:induction false} CancelStops(s: Worker, cfg: Config, answers: nat -> Answer, k: nat)
    requires s.cancelled
    ensures var steps := StopSteps(s, cfg, answers, k);
            && AllEnabled(s, cfg, steps) && Run(s, cfg, steps).phase.Stopped?
            && |steps| <= 2 * |s.queue| + 5
            && forall step | step in steps :: !step.Notify? && !step.Cancel? && !step.Deadline?
    decreases StepsLeft(s)
  {
    hide Next, Enabled;
    StopsWithin(s, cfg, answers, k);
    if !s.phase.Stopped? {
      OwnStepGoesOn(s, cfg, answers(k));
      var t := Next(s, cfg, OwnStep(s, answers(k)));
      CancelStops(t, cfg, answers, k + 1);
      RunFirst(s, cfg, OwnStep(s, answers(k)), StopSteps(t, cfg, answers, k + 1));
    }
  }

  lemma {:induction false} StopsWithin(s: Worker, cfg: Config, answers: nat -> Answer, k: nat)
    requires s.cancelled
    ensures |StopSteps(s, cfg, answers, k)| <= StepsLeft(s)
    decreases StepsLeft(s)
  {
    hide Next, Enabled, OwnStep;
    if !s.phase.Stopped? {
      OwnStepGoesOn(s, cfg, answers(k));
      StopsWithin(Next(s, cfg, OwnStep(s, answers(k))), cfg, answers, k + 1);
    }
  }

  // Sending with retries, as steps of the machine

  /** What happens while a batch is sent, from attempt `k` on, when no one else interferes. */
  function SendingSteps(retryMax: nat, tries: nat -> Try, k: nat): seq<Step>
    decreases Attempts(retryMax) - k
  {
    var t := tries(k);
    if t.before || t.during then [Cancel, Interrupted]
    else if !t.answer.TryLater? || k + 1 >= Attempts(retryMax) then [Answered(t.answer)]
    else if t.waiting then [Answered(t.answer), Cancel, Interrupted]
    else [Answered(t.answer), Wake] + SendingSteps(retryMax, tries, k + 1)
  }

  /** Where the machine is after a batch was sent, given up, or interrupted. */
  function AfterSending(s: Worker, b: Batch, verdict: Verdict): Worker {
    match verdict
    case Sent => Done(s, b, WasSent, Idle)
    case Failed => Done(s, b, WasFailed, Idle)
    case Cancelled => s.(phase := Leaving(Some(b)), cancelled := true)
  }

  lemma {:induction false} RunFirst(s: Worker, cfg: Config, step: Step, steps: seq<Step>)
    requires Enabled(s, step)
    ensures Run(s, cfg, [step] + steps) == Run(Next(s, cfg, step), cfg, steps)
    ensures AllEnabled(Next(s, cfg, step), cfg, steps) ==> AllEnabled(s, cfg, [step] + steps)
    decreases |steps|
  {
    var all := [step] + steps;
    if steps == [] {
      assert all[..0] == [];
    } else {
      assert all[..|all| - 1] == [step] + steps[..|steps| - 1];
      RunFirst(s, cfg, step, steps[..|steps| - 1]);
    }
  }

  lemma {:induction false} RunTwo(s: Worker, cfg: Config, first: Step, second: Step, steps: seq<Step>)
    requires Enabled(s, first) && Enabled(Next(s, cfg, first), second)
    ensures Run(s, cfg, [first, second] + steps) == Run(Next(Next(s, cfg, first), cfg, second), cfg, steps)
    ensures AllEnabled(Next(Next(s, cfg, first), cfg, second), cfg, steps) ==>
            AllEnabled(s, cfg, [first, second] + steps)
  {
    RunFirst(s, cfg, first, [second] + steps);
    RunFirst(Next(s, cfg, first), cfg, second, steps);
    assert [first, second] + steps == [first] + ([second] + steps);
  }

  lemma {:induction false} InterruptIsRun(s: Worker, cfg: Config, b: Batch)
    requires (s.phase.Sending? || s.phase.Waiting?) && s.phase.b == b
    ensures AllEnabled(s, cfg, [Cancel, Interrupted])
    ensures Run(s, cfg, [Cancel, Interrupted]) == AfterSending(s, b, Cancelled)
  {
    RunTwo(s, cfg, Cancel, Interrupted, []);
    assert [Cancel, Interrupted] + [] == [Cancel, Interrupted];
  }

  lemma {:induction false} LastAnswerIsRun(s: Worker, cfg: Config, b: Batch, k: nat, answer: Answer)
    requires s.phase == Sending(b, k) && !s.cancelled
    requires answer.TryLater? ==> k + 1 >= Attempts(cfg.retryMax)
    ensures AllEnabled(s, cfg, [Answered(answer)])
    ensures Run(s, cfg, [Answered(answer)]) == AfterSending(s, b, if answer == Accepts then Sent else Failed)
  {
    RunFirst(s, cfg, Answered(answer), []);
    assert [Answered(answer)] + [] == [Answered(answer)];
  }

  /** The retry loop is a run of the machine: its steps are enabled, and they leave the batch sent,
      failed or interrupted exactly as the loop says. */
  lemma {:induction false} SendingIsRun(s: Worker, cfg: Config, tries: nat -> Try, b: Batch, k: nat)
    requires s.phase == Sending(b, k) && !s.cancelled && k < Attempts(cfg.retryMax)
    ensures AllEnabled(s, cfg, SendingSteps(cfg.retryMax, tries, k))
    ensures Run(s, cfg, SendingSteps(cfg.retryMax, tries, k)) == AfterSending(s, b, Ends(cfg.retryMax, tries, k))
    decreases Attempts(cfg.retryMax) - k
  {
    hide Run, AllEnabled, Done;
    var t := tries(k);
    if t.before || t.during {
      InterruptIsRun(s, cfg, b);
    } else if !t.answer.TryLater? || k + 1 >= Attempts(cfg.retryMax) {
      LastAnswerIsRun(s, cfg, b, k, t.answer);
    } else {
      var waiting := s.(phase := Waiting(b, k));
      assert Next(s, cfg, Answered(t.answer)) == waiting;
      if t.waiting {
        RunFirst(s, cfg, Answered(t.answer), [Cancel, Interrupted]);
        InterruptIsRun(waiting, cfg, b);
        assert [Answered(t.answer)] + [Cancel, Interrupted] == [Answered(t.answer), Cancel, Interrupted];
      } else {
        var again := s.(phase := Sending(b, k + 1));
        assert Next(waiting, cfg, Wake) == again;
        SendingIsRun(again, cfg, tries, b, k + 1);
        RunTwo(s, cfg, Answered(t.answer), Wake, SendingSteps(cfg.retryMax, tries, k + 1));
        SamePhaseAfter(s, again, b, Ends(cfg.retryMax, tries, k + 1));
      }
    }
  }

  lemma {:induction false} SamePhaseAfter(s: Worker, t: Worker, b: Batch, verdict: Verdict)
    requires t == s.(phase := t.phase)
    ensures AfterSending(t, b, verdict) == AfterSending(s, b, verdict)
  {
  }

  // The drain as the worker runs it

  /** What one batch meets while draining: the grace period may be over before it is sent or cut its
      sending short. */
  datatype Fate = Late | CutShort | Got(answer: Answer)

  function OutcomeOf(b: Batch, fate: Fate): Outcome {
    if Empty(b) then WasSkipped
    else if fate.Got? then if fate.answer == Accepts then WasSent else WasFailed
    else WasAbandoned
  }

  /** What a batch meets in the drain is one attempt of the retry loop, without retry. */
  lemma {:induction false} DrainTriesOnce(b: Batch, fate: Fate)
    requires !Empty(b)
    ensures var answer := if fate.Got? then fate.answer else Rejects;
            var verdict := Ends(0, (k: nat) => Try(fate == Late, fate == CutShort, answer, false), 0);
            && (OutcomeOf(b, fate) == WasSent <==> verdict == Sent)
            && (OutcomeOf(b, fate) == WasFailed <==> verdict == Failed)
            && (OutcomeOf(b, fate) == WasAbandoned <==> verdict == Cancelled)
  {
  }

  function CountOf(outcomes: seq<Outcome>, outcome: Outcome): nat {
    if outcomes == [] then 0
    else CountOf(outcomes[..|outcomes| - 1], outcome) + if outcomes[|outcomes| - 1] == outcome then 1 else 0
  }

  lemma {:induction false} OneMore(outcomes: seq<Outcome>, x: Outcome)
    ensures forall o: Outcome :: CountOf(outcomes + [x], o) == CountOf(outcomes, o) + if x == o then 1 else 0
  {
    assert (outcomes + [x])[..|outcomes|] == outcomes;
  }

  function Chain(interrupted: Option<Batch>, queue: seq<Batch>): seq<Batch> {
    if interrupted.Some? then [interrupted.value] + queue else queue
  }

  lemma {:induction false} ChainFirst(interrupted: Option<Batch>, queue: seq<Batch>)
    requires interrupted.Some? || queue != []
    ensures var chain := Chain(interrupted, queue);
            && chain != []
            && chain[0] == (if interrupted.Some? then interrupted.value else queue[0])
            && chain[1..] == (if interrupted.Some? then queue else queue[1..])
  {
  }

  lemma {:induction false} ChainStep(chain: seq<Batch>, i: nat)
    requires i < |chain|
    ensures chain[i] == chain[i..][0] && chain[i + 1..] == chain[i..][1..]
  {
  }

  function Outcomes(chain: seq<Batch>, fates: nat -> Fate, k: nat): (outcomes: seq<Outcome>)
    requires k <= |chain|
    ensures |outcomes| == |chain| - k
    ensures forall i | k <= i < |chain| :: outcomes[i - k] == OutcomeOf(chain[i], fates(i))
    decreases |chain| - k
  {
    if k == |chain| then [] else [OutcomeOf(chain[k], fates(k))] + Outcomes(chain, fates, k + 1)
  }

  /** Part of the chain has its outcomes, and the rest is still to be taken. */
  predicate SoFar(chain: seq<Batch>, fates: nat -> Fate, outcomes: seq<Outcome>, pending: Option<Batch>,
                  queue: seq<Batch>) {
    && |outcomes| <= |chain|
    && (forall i | 0 <= i < |outcomes| :: outcomes[i] == OutcomeOf(chain[i], fates(i)))
    && chain[|outcomes|..] == Chain(pending, queue)
  }

  lemma {:induction false} SoFarMore(chain: seq<Batch>, fates: nat -> Fate, outcomes: seq<Outcome>,
                                     pending: Option<Batch>, queue: seq<Batch>)
    requires SoFar(chain, fates, outcomes, pending, queue) && (pending.Some? || queue != [])
    ensures |outcomes| < |chain| && Chain(pending, queue) != []
    ensures var outcome := OutcomeOf(Chain(pending, queue)[0], fates(|outcomes|));
            SoFar(chain, fates, outcomes + [outcome], None, Chain(pending, queue)[1..])
  {
    ChainFirst(pending, queue);
    ChainStep(chain, |outcomes|);
  }

  lemma {:induction false} AllOutcomes(chain: seq<Batch>, fates: nat -> Fate, outcomes: seq<Outcome>)
    requires SoFar(chain, fates, outcomes, None, [])
    ensures outcomes == Outcomes(chain, fates, 0)
  {
    assert |chain[|outcomes|..]| == |chain| - |outcomes|;
  }

  class RouteWorker {
    var queue: seq<Batch>
    var sent: nat
    var failed: nat
    var dropped: nat

    /** The interrupted batch first, then the queue. */
    method TakeFirst(interrupted: Option<Batch>) returns (b: Batch)
      requires interrupted.Some? || queue != []
      modifies this`queue
      ensures b == Chain(interrupted, old(queue))[0] && queue == Chain(interrupted, old(queue))[1..]
    {
      if interrupted.Some? {
        b := interrupted.value;
      } else {
        b, queue := queue[0], queue[1..];
      }
    }

    /** One attempt, no retry. Batches that are not sent in time are counted at the end. */
    method SendOne(b: Batch, fate: Fate) returns (outcome: Outcome)
      modifies this`sent, this`failed
      ensures outcome == OutcomeOf(b, fate)
      ensures sent == old(sent) + (if outcome == WasSent then 1 else 0)
      ensures failed == old(failed) + (if outcome == WasFailed then 1 else 0)
    {
      if Empty(b) {
        return WasSkipped;
      }
      match fate
      case Late => outcome := WasAbandoned;
      case CutShort => outcome := WasAbandoned;
      case Got(answer) =>
        if answer == Accepts {
          sent := sent + 1;
          outcome := WasSent;
        } else {
          failed := failed + 1;
          outcome := WasFailed;
        }
    }

    method DrainRemaining(interrupted: Option<Batch>, fates: nat -> Fate) returns (outcomes: seq<Outcome>)
      modifies this
      ensures queue == []
      ensures outcomes == Outcomes(Chain(interrupted, old(queue)), fates, 0)
      ensures sent == old(sent) + CountOf(outcomes, WasSent)
      ensures failed == old(failed) + CountOf(outcomes, WasFailed)
      ensures dropped == old(dropped) + CountOf(outcomes, WasAbandoned)
    {
      ghost var chain := Chain(interrupted, queue);
      assert SoFar(chain, fates, [], interrupted, queue);
      assert CountOf([], WasSent) == CountOf([], WasFailed) == CountOf([], WasAbandoned) == 0;
      hide CountOf, Outcomes, SoFar, OutcomeOf, Empty, Chain;
      var pending := interrupted;
      var abandoned := 0;
      outcomes := [];
      while pending.Some? || queue != []
        invariant SoFar(chain, fates, outcomes, pending, queue)
        invariant sent == old(sent) + CountOf(outcomes, WasSent) && failed == old(failed) + CountOf(outcomes, WasFailed)
        invariant abandoned == CountOf(outcomes, WasAbandoned) && dropped == old(dropped)
        decreases |chain| - |outcomes|
      {
        SoFarMore(chain, fates, outcomes, pending, queue);
        var b := TakeFirst(pending);
        pending := None;
        var outcome := SendOne(b, fates(|outcomes|));
        OneMore(outcomes, outcome);
        if outcome == WasAbandoned {
          abandoned := abandoned + 1;
        }
        outcomes := outcomes + [outcome];
      }
      dropped := dropped + abandoned;
      AllOutcomes(chain, fates, outcomes);
    }
  }

  // The drain, as steps of the machine

  /** The grace period, once over, stays over: nothing is sent after it has cut a sending short. */
  predicate Sticky(fates: nat -> Fate, n: nat) {
    forall i, j | 0 <= i < j < n && !fates(i).Got? :: fates(j) == Late
  }

  /** What happens to one batch while draining. */
  function DrainOne(b: Batch, fate: Fate): seq<Step> {
    match fate
    case Late => [Deadline, TakeNext]
    case CutShort => if Empty(b) then [TakeNext, Deadline] else [TakeNext, Deadline, FlushCut]
    case Got(answer) => if Empty(b) then [TakeNext] else [TakeNext, Flushed(answer)]
  }

  function DrainSteps(chain: seq<Batch>, fates: nat -> Fate, k: nat): seq<Step>
    requires k <= |chain|
    decreases |chain| - k
  {
    if k == |chain| then [Finish] else DrainOne(chain[k], fates(k)) + DrainSteps(chain, fates, k + 1)
  }

  /** The next batch and the machine without it. */
  function Popped(s: Worker): Worker
    requires Enabled(s, TakeNext)
  {
    s.(queue := if s.phase.interrupted.Some? then s.queue else s.queue[1..])
  }

  function Drained(s: Worker, b: Batch, fate: Fate): Worker
    requires Enabled(s, TakeNext)
  {
    Done(Popped(s), b, OutcomeOf(b, fate), Draining(None)).(late := s.late || !fate.Got?)
  }

  lemma {:induction false} RunConcat(s: Worker, cfg: Config, first: seq<Step>, rest: seq<Step>)
    requires AllEnabled(s, cfg, first)
    ensures Run(s, cfg, first + rest) == Run(Run(s, cfg, first), cfg, rest)
    ensures AllEnabled(Run(s, cfg, first), cfg, rest) ==> AllEnabled(s, cfg, first + rest)
    decreases |rest|
  {
    var all := first + rest;
    if rest == [] {
      assert all == first;
    } else {
      assert all[..|all| - 1] == first + rest[..|rest| - 1];
      RunConcat(s, cfg, first, rest[..|rest| - 1]);
    }
  }

  lemma {:induction false} StepsAre(s: Worker, cfg: Config, a: Step, b: Step)
    requires Enabled(s, a)
    ensures AllEnabled(s, cfg, [a]) && Run(s, cfg, [a]) == Next(s, cfg, a)
    ensures Enabled(Next(s, cfg, a), b) ==>
              AllEnabled(s, cfg, [a, b]) && Run(s, cfg, [a, b]) == Next(Next(s, cfg, a), cfg, b)
  {
    assert [a][..0] == [] && [a, b][..1] == [a];
  }

  lemma {:induction false} ThreeSteps(s: Worker, cfg: Config, a: Step, b: Step, c: Step)
    requires Enabled(s, a) && Enabled(Next(s, cfg, a), b) && Enabled(Next(Next(s, cfg, a), cfg, b), c)
    ensures AllEnabled(s, cfg, [a, b, c]) && Run(s, cfg, [a, b, c]) == Next(Next(Next(s, cfg, a), cfg, b), cfg, c)
  {
    StepsAre(s, cfg, a, b);
    assert [a, b, c][..2] == [a, b];
  }

  lemma {:induction false} DrainOneCutShort(s: Worker, cfg: Config, b: Batch)
    requires Enabled(s, TakeNext) && !s.late
    requires b == if s.phase.interrupted.Some? then s.phase.interrupted.value else s.queue[0]
    ensures AllEnabled(s, cfg, DrainOne(b, CutShort)) && Run(s, cfg, DrainOne(b, CutShort)) == Drained(s, b, CutShort)
  {
    if Empty(b) {
      StepsAre(s, cfg, TakeNext, Deadline);
    } else {
      ThreeSteps(s, cfg, TakeNext, Deadline, FlushCut);
    }
  }

  lemma {:induction false} DrainOneAnswered(s: Worker, cfg: Config, b: Batch, answer: Answer)
    requires Enabled(s, TakeNext) && !s.late
    requires b == if s.phase.interrupted.Some? then s.phase.interrupted.value else s.queue[0]
    ensures AllEnabled(s, cfg, DrainOne(b, Got(answer)))
    ensures Run(s, cfg, DrainOne(b, Got(answer))) == Drained(s, b, Got(answer))
  {
    StepsAre(s, cfg, TakeNext, Flushed(answer));
  }

  /** One batch of the drain, with the grace period as its fate says. */
  lemma {:induction false} DrainOneIsRun(s: Worker, cfg: Config, b: Batch, fate: Fate)
    requires Enabled(s, TakeNext)
    requires b == if s.phase.interrupted.Some? then s.phase.interrupted.value else s.queue[0]
    requires s.late ==> fate == Late
    ensures AllEnabled(s, cfg, DrainOne(b, fate)) && Run(s, cfg, DrainOne(b, fate)) == Drained(s, b, fate)
  {
    match fate
    case Late => StepsAre(s, cfg, Deadline, TakeNext);
    case CutShort => DrainOneCutShort(s, cfg, b);
    case Got(answer) => DrainOneAnswered(s, cfg, b, answer);
  }

  function HandledWith(batches: seq<Batch>, outcomes: seq<Outcome>): (handled: seq<Handled>)
    requires |batches| == |outcomes|
    ensures |handled| == |batches|
  {
    seq(|batches|, i requires 0 <= i < |batches| => Handled(batches[i], outcomes[i]))
  }

  /** What the machine looks like when a chain of batches has been drained with these outcomes. */
  ghost predicate EndsDrain(s: Worker, t: Worker, batches: seq<Batch>, outcomes: seq<Outcome>) {
    && |batches| == |outcomes|
    && t.phase.Stopped? && t.queue == []
    && t.handled == s.handled + HandledWith(batches, outcomes)
    && t.sent == s.sent + CountOf(outcomes, WasSent)
    && t.failed == s.failed + CountOf(outcomes, WasFailed)
    && t.dropped == s.dropped + s.abandoned + CountOf(outcomes, WasAbandoned)
  }

  lemma {:induction false} CountFirst(x: Outcome, rest: seq<Outcome>, outcome: Outcome)
    ensures CountOf([x] + rest, outcome) == CountOf(rest, outcome) + if x == outcome then 1 else 0
  {
    var all := [x] + rest;
    if rest == [] {
      assert all[..0] == [];
    } else {
      assert all[..|all| - 1] == [x] + rest[..|rest| - 1];
      CountFirst(x, rest[..|rest| - 1], outcome);
    }
  }

  lemma {:induction false} EndsDrainMore(s: Worker, t: Worker, b: Batch, fate: Fate, batches: seq<Batch>,
                                         outcomes: seq<Outcome>)
    requires Enabled(s, TakeNext) && EndsDrain(Drained(s, b, fate), t, batches, outcomes)
    ensures EndsDrain(s, t, [b] + batches, [OutcomeOf(b, fate)] + outcomes)
  {
    var outcome := OutcomeOf(b, fate);
    CountFirst(outcome, outcomes, WasSent);
    CountFirst(outcome, outcomes, WasFailed);
    CountFirst(outcome, outcomes, WasAbandoned);
    hide CountOf;
    assert s.handled + [Handled(b, outcome)] + HandledWith(batches, outcomes) ==
           s.handled + HandledWith([b] + batches, [outcome] + outcomes);
  }

  predicate AllLate(fates: nat -> Fate, k: nat, n: nat) {
    forall j | k <= j < n :: fates(j) == Late
  }

  /** The machine after one batch is ready for the rest of the chain. */
  lemma {:induction false} DrainGoesOn(s: Worker, chain: seq<Batch>, fates: nat -> Fate, k: nat)
    requires k < |chain| && s.phase.Draining? && Chain(s.phase.interrupted, s.queue) == chain[k..]
    requires Sticky(fates, |chain|) && (s.late ==> AllLate(fates, k, |chain|))
    ensures Enabled(s, TakeNext)
    ensures chain[k] == if s.phase.interrupted.Some? then s.phase.interrupted.value else s.queue[0]
    ensures s.late ==> fates(k) == Late
    ensures var t := Drained(s, chain[k], fates(k));
            && t.phase == Draining(None) && t.queue == chain[k + 1..]
            && (t.late ==> AllLate(fates, k + 1, |chain|))
  {
    ChainStep(chain, k);
    ChainFirst(s.phase.interrupted, s.queue);
  }

  /** One batch drained, and then the rest. */
  lemma {:induction false} DrainCompose(s: Worker, cfg: Config, b: Batch, fate: Fate, rest: seq<Step>,
                                        batches: seq<Batch>, outcomes: seq<Outcome>)
    requires Enabled(s, TakeNext) && (s.late ==> fate == Late)
    requires b == if s.phase.interrupted.Some? then s.phase.interrupted.value else s.queue[0]
    requires var t := Drained(s, b, fate);
             AllEnabled(t, cfg, rest) && EndsDrain(t, Run(t, cfg, rest), batches, outcomes)
    ensures AllEnabled(s, cfg, DrainOne(b, fate) + rest)
    ensures EndsDrain(s, Run(s, cfg, DrainOne(b, fate) + rest), [b] + batches, [OutcomeOf(b, fate)] + outcomes)
  {
    DrainOneIsRun(s, cfg, b, fate);
    RunConcat(s, cfg, DrainOne(b, fate), rest);
    EndsDrainMore(s, Run(Drained(s, b, fate), cfg, rest), b, fate, batches, outcomes);
  }

  ghost predicate DrainsFrom(s: Worker, cfg: Config, chain: seq<Batch>, fates: nat -> Fate, k: nat)
    requires k <= |chain|
  {
    var steps := DrainSteps(chain, fates, k);
    AllEnabled(s, cfg, steps) && EndsDrain(s, Run(s, cfg, steps), chain[k..], Outcomes(chain, fates, k))
  }

  lemma {:induction false} NothingToDrain(s: Worker, cfg: Config, chain: seq<Batch>, fates: nat -> Fate)
    requires s.phase.Draining? && Chain(s.phase.interrupted, s.queue) == []
    ensures DrainsFrom(s, cfg, chain, fates, |chain|)
  {
    StepsAre(s, cfg, Finish, Finish);
    assert CountOf([], WasSent) == CountOf([], WasFailed) == CountOf([], WasAbandoned) == 0;
    assert s.handled + HandledWith([], []) == s.handled;
    assert chain[|chain|..] == [];
  }

  lemma {:induction false} DrainBefore(s: Worker, cfg: Config, chain: seq<Batch>, fates: nat -> Fate, k: nat)
    requires k < |chain| && Enabled(s, TakeNext) && (s.late ==> fates(k) == Late)
    requires chain[k] == if s.phase.interrupted.Some? then s.phase.interrupted.value else s.queue[0]
    requires DrainsFrom(Drained(s, chain[k], fates(k)), cfg, chain, fates, k + 1)
    ensures DrainsFrom(s, cfg, chain, fates, k)
  {
    var b, fate := chain[k], fates(k);
    DrainCompose(s, cfg, b, fate, DrainSteps(chain, fates, k + 1), chain[k + 1..], Outcomes(chain, fates, k + 1));
    hide Run, AllEnabled, EndsDrain, DrainOne, OutcomeOf, Drained, Enabled;
    assert chain[k..] == [b] + chain[k + 1..];
  }

  lemma {:induction false} DrainFrom(s: Worker, cfg: Config, chain: seq<Batch>, fates: nat -> Fate, k: nat)
    requires k <= |chain| && s.phase.Draining? && Chain(s.phase.interrupted, s.queue) == chain[k..]
    requires Sticky(fates, |chain|) && (s.late ==> AllLate(fates, k, |chain|))
    ensures DrainsFrom(s, cfg, chain, fates, k)
    decreases |chain| - k
  {
    if k == |chain| {
      NothingToDrain(s, cfg, chain, fates);
    } else {
      DrainGoesOn(s, chain, fates, k);
      DrainFrom(Drained(s, chain[k], fates(k)), cfg, chain, fates, k + 1);
      DrainBefore(s, cfg, chain, fates, k);
    }
  }

  /** The drain loop is a run of the machine: its steps are enabled, and they handle the batches in that
      order, with those outcomes and those counts, and stop. */
  lemma {:induction false} DrainIsRun(s: Worker, cfg: Config, fates: nat -> Fate)
    requires s.phase.Draining? && !s.late && Sticky(fates, |Chain(s.phase.interrupted, s.queue)|)
    ensures var chain := Chain(s.phase.interrupted, s.queue);
            && AllEnabled(s, cfg, DrainSteps(chain, fates, 0))
            && EndsDrain(s, Run(s, cfg, DrainSteps(chain, fates, 0)), chain, Outcomes(chain, fates, 0))
  {
    var chain := Chain(s.phase.interrupted, s.queue);
    assert chain[0..] == chain;
    DrainFrom(s, cfg, chain, fates, 0);
  }
}
