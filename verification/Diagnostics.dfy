/** Diagnostic lines on their way to a stderr that may stall, take part of a line, or fail. Callers
    never wait; lines that cannot be queued or written are counted and the count is reported. */
module Diagnostics {
  import opened Basics
  import opened Tally

  const QUEUE_CAPACITY: nat := 1024

  // Writing to a device that may fail

  /** What one write(2) does: take some of the bytes (none counts as a failure), be interrupted and
      tried again, or fail. */
  datatype Result = Took(n: nat) | Interrupted | Broken

  /** The bytes that reached stderr, whether the last line broke off, and what is to happen to the
      coming writes; when nothing more is foreseen they fail. */
  datatype Device = Device(out: seq<byte>, torn: bool, script: seq<Result>)

  /** How many of `want` bytes are taken before a failure. */
  function Accepted(want: nat, script: seq<Result>): (r: (nat, seq<Result>))
    ensures r.0 <= want
    decreases |script|
  {
    if want == 0 then (0, script)
    else if script == [] then (0, [])
    else
      match script[0]
      case Took(n) =>
        if n == 0 then (0, script[1..])
        else
          var k := if n < want then n else want;
          var (more, rest) := Accepted(want - k, script[1..]);
          (k + more, rest)
      case Interrupted => Accepted(want, script[1..])
      case Broken => (0, script[1..])
  }

  /** How many bytes are taken before the first failure; interruptions do not count as one. */
  function Capacity(script: seq<Result>): nat {
    if script == [] || script[0] == Broken || script[0] == Took(0) then 0
    else (if script[0].Took? then script[0].n else 0) + Capacity(script[1..])
  }

  /** As much is taken as there is room for before the first failure. */
  lemma {:induction false} AcceptedIs(want: nat, script: seq<Result>)
    ensures Accepted(want, script).0 == if want <= Capacity(script) then want else Capacity(script)
    decreases |script|
  {
    if want > 0 && script != [] {
      match script[0]
      case Took(n) => AcceptedIs(if n < want then want - n else 0, script[1..]);
      case Interrupted => AcceptedIs(want, script[1..]);
      case Broken =>
    }
  }

  predicate IsFailure(r: Result) {
    r == Broken || r == Took(0)
  }

  function Taken(r: Result): nat {
    if r.Took? then r.n else 0
  }

  lemma {:induction false} CapacityOfSlice(script: seq<Result>, j: nat)
    requires j < |script| && !IsFailure(script[0])
    ensures Capacity(script[..j + 1]) == Taken(script[0]) + Capacity(script[1..][..j])
    ensures Capacity(script[..0]) == 0
  {
    assert script[..j + 1][1..] == script[1..][..j];
  }

  lemma {:induction false} AcceptedFirst(want: nat, script: seq<Result>)
    requires want > 0 && script != []
    ensures IsFailure(script[0]) ==> Accepted(want, script).1 == script[1..] && Capacity(script) == 0
    ensures !IsFailure(script[0]) ==>
              var more := if Taken(script[0]) < want then want - Taken(script[0]) else 0;
              Accepted(want, script).1 == Accepted(more, script[1..]).1
              && Capacity(script) == Taken(script[0]) + Capacity(script[1..])
  {
  }

  /** `j` writes are just as many as it takes. */
  predicate JustEnough(want: nat, script: seq<Result>, j: nat) {
    && j <= |script|
    && (want <= Capacity(script) ==> want <= Capacity(script[..j]) && (j > 0 ==> Capacity(script[..j - 1]) < want))
    && (want > Capacity(script) ==> j == |script| || (j > 0 && IsFailure(script[j - 1])))
  }

  /** Just as many writes are made as it takes: up to the one that takes the last byte, or up to the
      first failure. */
  lemma {:induction false} WritesMade(want: nat, script: seq<Result>)
    ensures exists j | 0 <= j <= |script| :: JustEnough(want, script, j) && Accepted(want, script).1 == script[j..]
    decreases |script|
  {
    hide Capacity, Accepted, IsFailure;
    if want == 0 || script == [] {
      NoWrites(want, script);
      assert JustEnough(want, script, 0);
    } else {
      AcceptedFirst(want, script);
      if IsFailure(script[0]) {
        assert JustEnough(want, script, 1);
      } else {
        var taken, rest := Taken(script[0]), script[1..];
        var more := if taken < want then want - taken else 0;
        WritesMade(more, rest);
        var j :| 0 <= j <= |rest| && JustEnough(more, rest, j) && Accepted(more, rest).1 == rest[j..];
        CapacityOfSlice(script, j);
        if j > 0 {
          CapacityOfSlice(script, j - 1);
        }
        assert JustEnough(want, script, j + 1) && rest[j..] == script[j + 1..];
      }
    }
  }

  lemma {:induction false} NothingWanted()
    ensures forall script :: Accepted(0, script) == (0, script)
  {
  }

  /** One write and what comes after it. */
  lemma {:induction false} AcceptedOnce(want: nat, script: seq<Result>)
    requires want > 0
    ensures script == [] ==> Accepted(want, script) == (0, [])
    ensures script != [] && IsFailure(script[0]) ==> Accepted(want, script) == (0, script[1..])
    ensures script != [] && !IsFailure(script[0]) ==>
              var k := if Taken(script[0]) < want then Taken(script[0]) else want;
              var more := Accepted(want - k, script[1..]);
              Accepted(want, script).0 == k + more.0 && Accepted(want, script).1 == more.1
  {
    if script != [] {
      match script[0]
      case Took(n) =>
      case Interrupted =>
      case Broken =>
    }
  }

  lemma {:induction false} NoWrites(want: nat, script: seq<Result>)
    requires want == 0 || script == []
    ensures Accepted(want, script).1 == script[0..] && Capacity(script[..0]) == 0
    ensures script == [] ==> Capacity(script) == 0
  {
  }

  function Body(d: Device, line: seq<byte>): (Device, bool) {
    var (written, rest) := Accepted(|line|, d.script);
    var ok := written == |line|;
    (Device(d.out + line[..written], if ok then d.torn else written > 0, rest), ok)
  }

  /** A line that broke off is ended before the next one begins. */
  function Lined(d: Device, line: seq<byte>): (Device, bool) {
    if !d.torn then Body(d, line)
    else
      var (written, rest) := Accepted(1, d.script);
      if written < 1 then (d.(script := rest), false)
      else Body(Device(d.out + [NEWLINE], false, rest), line)
  }

  predicate AtLineStart(out: seq<byte>, offset: nat) {
    offset <= |out| && (offset == 0 || out[offset - 1] == NEWLINE)
  }

  predicate Terminated(line: seq<byte>) {
    line != [] && line[|line| - 1] == NEWLINE
  }

  /** Where a new line may begin, the last one ended. */
  predicate Clean(d: Device) {
    !d.torn ==> AtLineStart(d.out, |d.out|)
  }

  /** A line that is written in full begins a line of the output, however torn that was before. */
  lemma {:induction false} LinedKeepsLines(d: Device, line: seq<byte>)
    requires Clean(d) && Terminated(line)
    ensures var (after, ok) := Lined(d, line);
            && Clean(after) && d.out <= after.out
            && (ok ==>
                  && |d.out| <= |after.out| - |line|
                  && AtLineStart(after.out, |after.out| - |line|)
                  && after.out[|after.out| - |line|..] == line)
  {
    var ended := if d.torn then d.out + [NEWLINE] else d.out;
    var (after, ok) := Lined(d, line);
    if ok {
      assert after.out == ended + line;
    }
  }

  // The writer thread among callers

  datatype Message = Line(line: seq<byte>) | Flush

  datatype Hand = Free | Fetched(line: seq<byte>) | Noting(line: seq<byte>, lost: nat) | Writing(line: seq<byte>)

  /** `rejecting` callers have been turned away but have not counted their line yet. `submitted`,
      `accepted`, `taken`, `written` (offset and line) and `reported` are histories. */
  datatype State = State(queue: seq<Message>, rejecting: nat, dropped: nat, hand: Hand, device: Device,
                         submitted: nat, accepted: seq<Message>, taken: seq<Message>,
                         written: seq<(nat, seq<byte>)>, reported: nat)

  function Start(script: seq<Result>): State {
    State([], 0, 0, Free, Device([], false, script), 0, [], [], [], 0)
  }

  /** `note` is the text that reports a number of lost lines. */
  datatype Step =
    | Submit(line: seq<byte>)
    | CountRejected
    | AskFlush
    | Receive
    | SwapDropped
    | WriteNote(note: seq<byte>)
    | WriteLine

  predicate Enabled(s: State, step: Step) {
    match step
    case Submit(_) => true
    case CountRejected => s.rejecting > 0
    case AskFlush => |s.queue| < QUEUE_CAPACITY
    case Receive => s.hand.Free? && s.queue != []
    case SwapDropped => s.hand.Fetched?
    case WriteNote(_) => s.hand.Noting?
    case WriteLine => s.hand.Writing?
  }

  function Next(s: State, step: Step): State
    requires Enabled(s, step)
  {
    match step
    case Submit(line) =>
      if |s.queue| < QUEUE_CAPACITY then
        s.(submitted := s.submitted + 1, queue := s.queue + [Line(line)], accepted := s.accepted + [Line(line)])
      else s.(submitted := s.submitted + 1, rejecting := s.rejecting + 1)
    case CountRejected => s.(rejecting := s.rejecting - 1, dropped := s.dropped + 1)
    case AskFlush => s.(queue := s.queue + [Flush], accepted := s.accepted + [Flush])
    case Receive =>
      s.(queue := s.queue[1..], taken := s.taken + [s.queue[0]],
         hand := if s.queue[0].Line? then Fetched(s.queue[0].line) else Free)
    case SwapDropped =>
      s.(dropped := 0, hand := if s.dropped > 0 then Noting(s.hand.line, s.dropped) else Writing(s.hand.line))
    case WriteNote(note) =>
      var (device, ok) := Lined(s.device, note);
      if ok then s.(device := device, reported := s.reported + s.hand.lost, hand := Writing(s.hand.line))
      else s.(device := device, dropped := s.dropped + s.hand.lost + 1, hand := Free)
    case WriteLine =>
      var (device, ok) := Lined(s.device, s.hand.line);
      if ok then s.(device := device, written := s.written + [(|device.out| - |s.hand.line|, s.hand.line)],
                    hand := Free)
      else s.(device := device, dropped := s.dropped + 1, hand := Free)
  }

  ghost predicate AllEnabled(s: State, steps: seq<Step>)
    decreases |steps|
  {
    steps != [] ==> AllEnabled(s, steps[..|steps| - 1]) && Enabled(Run(s, steps[..|steps| - 1]), steps[|steps| - 1])
  }

  function Run(s: State, steps: seq<Step>): State
    decreases |steps|
  {
    if steps == [] then s
    else
      var before := Run(s, steps[..|steps| - 1]);
      if Enabled(before, steps[|steps| - 1]) then Next(before, steps[|steps| - 1]) else before
  }

  // Accounts

  function IsLine(m: Message): nat {
    if m.Line? then 1 else 0
  }

  function Lost(hand: Hand): nat {
    if hand.Noting? then hand.lost else 0
  }

  function Held(hand: Hand): nat {
    if hand.Free? then 0 else 1
  }

  /** A line where it was written, at the start of a line of the output. */
  predicate Placed(out: seq<byte>, at: (nat, seq<byte>)) {
    && at.0 + |at.1| <= |out|
    && out[at.0..at.0 + |at.1|] == at.1
    && AtLineStart(out, at.0)
  }

  predicate Balanced(s: State) {
    s.submitted == |s.written| + Total(s.queue, IsLine) + Held(s.hand) + s.dropped + s.reported + Lost(s.hand) +
      s.rejecting
  }

  predicate LinesTerminated(s: State) {
    && (forall m | m in s.queue && m.Line? :: Terminated(m.line))
    && (!s.hand.Free? ==> Terminated(s.hand.line))
  }

  predicate AllPlaced(out: seq<byte>, written: seq<(nat, seq<byte>)>) {
    forall i | 0 <= i < |written| :: Placed(out, written[i])
  }

  predicate Sound(s: State) {
    Balanced(s) && s.accepted == s.taken + s.queue && |s.queue| <= QUEUE_CAPACITY
  }

  /** What holds while callers submit whole lines. */
  predicate Legible(s: State) {
    LinesTerminated(s) && Clean(s.device) && AllPlaced(s.device.out, s.written)
  }

  predicate WholeLines(step: Step) {
    && (step.Submit? ==> Terminated(step.line))
    && (step.WriteNote? ==> Terminated(step.note))
  }

  lemma {:induction false} PlacedStays(out: seq<byte>, more: seq<byte>, at: (nat, seq<byte>))
    requires Placed(out, at) && out <= more
    ensures Placed(more, at)
  {
    assert more[..|out|] == out;
    assert more[at.0..at.0 + |at.1|] == out[at.0..at.0 + |at.1|];
  }

  lemma {:induction false} WritePlaced(s: State, line: seq<byte>)
    requires Legible(s) && Terminated(line)
    ensures var (device, ok) := Lined(s.device, line);
            && Clean(device)
            && AllPlaced(device.out, s.written)
            && (ok ==> |line| <= |device.out| && Placed(device.out, (|device.out| - |line|, line)))
  {
    LinedKeepsLines(s.device, line);
    var device := Lined(s.device, line).0;
    forall i | 0 <= i < |s.written| ensures Placed(device.out, s.written[i]) {
      PlacedStays(s.device.out, device.out, s.written[i]);
    }
  }

  lemma {:induction false} StepSound(s: State, step: Step)
    requires Sound(s) && Enabled(s, step)
    ensures Sound(Next(s, step))
  {
    hide Total, Lined;
    match step
    case Submit(line) => TotalMore(s.queue, Line(line), IsLine);
    case AskFlush => TotalMore(s.queue, Flush, IsLine);
    case Receive =>
      TotalFirst(s.queue, IsLine);
      assert s.queue == [s.queue[0]] + s.queue[1..];
    case _ =>
  }

  lemma {:induction false} StepLegible(s: State, step: Step)
    requires Legible(s) && Enabled(s, step) && WholeLines(step)
    ensures Legible(Next(s, step))
  {
    if step.WriteNote? || step.WriteLine? {
      WritePlaced(s, if step.WriteNote? then step.note else s.hand.line);
      hide Placed;
    } else {
      hide AllPlaced;
      if step.Receive? {
        assert s.queue[0] in s.queue;
      }
    }
    hide Lined, Terminated, Clean;
  }

  lemma {:induction false} RunSound(script: seq<Result>, steps: seq<Step>)
    requires AllEnabled(Start(script), steps)
    ensures Sound(Run(Start(script), steps))
  {
    if steps != [] {
      RunSound(script, steps[..|steps| - 1]);
      StepSound(Run(Start(script), steps[..|steps| - 1]), steps[|steps| - 1]);
    }
  }

  /** At every step, under any pattern of full queues, partial writes and failed notes: each line that
      was submitted is written, queued, in hand, or counted exactly once, in the counter, in a note
      that was written, in the note in hand, or by a caller about to count it. */
  lemma {:induction false} NoLineForgotten(script: seq<Result>, steps: seq<Step>)
    requires AllEnabled(Start(script), steps)
    ensures Balanced(Run(Start(script), steps))
    ensures var s := Run(Start(script), steps);
            s.dropped + Lost(s.hand) <= s.submitted
  {
    RunSound(script, steps);
  }

  /** As long as callers submit whole lines, every line counted as written stands in the output,
      complete, at the start of a line, whatever broke off before it. */
  lemma {:induction false} WrittenLinesStart(script: seq<Result>, steps: seq<Step>)
    requires AllEnabled(Start(script), steps) && forall step | step in steps :: WholeLines(step)
    ensures Legible(Run(Start(script), steps))
  {
    if steps != [] {
      WrittenLinesStart(script, steps[..|steps| - 1]);
      StepLegible(Run(Start(script), steps[..|steps| - 1]), steps[|steps| - 1]);
    }
  }

  function Texts(written: seq<(nat, seq<byte>)>): (r: seq<seq<byte>>)
    ensures |r| == |written|
  {
    seq(|written|, i requires 0 <= i < |written| => written[i].1)
  }

  function LinesOf(messages: seq<Message>): seq<seq<byte>> {
    if messages == [] then []
    else
      var front, last := LinesOf(messages[..|messages| - 1]), messages[|messages| - 1];
      if last.Line? then front + [last.line] else front
  }

  /** What was written was taken before, in that order; a line in hand was taken last. */
  ghost predicate InOrder(s: State) {
    if s.hand.Free? then Subsequence(Texts(s.written), LinesOf(s.taken))
    else
      && s.taken != [] && s.taken[|s.taken| - 1] == Line(s.hand.line)
      && Subsequence(Texts(s.written), LinesOf(s.taken[..|s.taken| - 1]))
  }

  lemma {:induction false} LinesMore(messages: seq<Message>, m: Message)
    ensures LinesOf(messages + [m]) == if m.Line? then LinesOf(messages) + [m.line] else LinesOf(messages)
  {
    assert (messages + [m])[..|messages|] == messages;
  }

  lemma {:induction false} DoneInOrder(s: State, written: seq<(nat, seq<byte>)>)
    requires InOrder(s) && !s.hand.Free?
    requires written == s.written || exists offset :: written == s.written + [(offset, s.hand.line)]
    ensures Subsequence(Texts(written), LinesOf(s.taken))
  {
    var front := s.taken[..|s.taken| - 1];
    assert s.taken == front + [Line(s.hand.line)];
    LinesMore(front, Line(s.hand.line));
    SubsequenceMore(Texts(s.written), LinesOf(front), s.hand.line);
    hide Subsequence, LinesOf;
    if written != s.written {
      assert Texts(written) == Texts(s.written) + [s.hand.line];
    }
  }

  lemma {:induction false} TakenInOrder(s: State)
    requires InOrder(s) && Enabled(s, Receive)
    ensures InOrder(Next(s, Receive))
  {
    hide Subsequence, LinesOf;
    LinesMore(s.taken, s.queue[0]);
    assert (s.taken + [s.queue[0]])[..|s.taken|] == s.taken;
  }

  lemma {:induction false} StepInOrder(s: State, step: Step)
    requires InOrder(s) && Enabled(s, step)
    ensures InOrder(Next(s, step))
  {
    hide Lined, Subsequence, LinesOf;
    if step.Receive? {
      TakenInOrder(s);
    } else if step.WriteNote? || step.WriteLine? {
      var written := Next(s, step).written;
      if written != s.written {
        assert written == s.written + [(written[|s.written|].0, s.hand.line)];
      }
      DoneInOrder(s, written);
    }
  }

  lemma {:induction false} RunInOrder(script: seq<Result>, steps: seq<Step>)
    requires AllEnabled(Start(script), steps)
    ensures InOrder(Run(Start(script), steps))
  {
    hide Enabled, Next, InOrder;
    if steps == [] {
      StartInOrder(script);
    } else {
      RunInOrder(script, steps[..|steps| - 1]);
      StepInOrder(Run(Start(script), steps[..|steps| - 1]), steps[|steps| - 1]);
    }
  }

  lemma {:induction false} StartInOrder(script: seq<Result>)
    ensures InOrder(Start(script))
  {
  }

  /** How many lines were submitted to a full queue. */
  function SubmittedToFull(script: seq<Result>, steps: seq<Step>): nat {
    if steps == [] then 0
    else
      var front, last := steps[..|steps| - 1], steps[|steps| - 1];
      SubmittedToFull(script, front)
      + if last.Submit? && |Run(Start(script), front).queue| >= 1024 then 1 else 0
  }

  lemma {:induction false} LinesTaken(messages: seq<Message>, more: seq<Message>)
    ensures Subsequence(LinesOf(messages), LinesOf(messages + more))
    decreases |more|
  {
    if more == [] {
      assert messages + more == messages;
      PrefixSubsequence(LinesOf(messages), LinesOf(messages));
    } else {
      var front, last := more[..|more| - 1], more[|more| - 1];
      assert messages + more == (messages + front) + [last];
      LinesTaken(messages, front);
      LinesMore(messages + front, last);
      if last.Line? {
        SubsequenceMore(LinesOf(messages), LinesOf(messages + front), last.line);
      }
    }
  }

  /** Lines are written in the order in which they were accepted. */
  lemma {:induction false} WrittenInOrder(script: seq<Result>, steps: seq<Step>)
    requires AllEnabled(Start(script), steps)
    ensures Subsequence(Texts(Run(Start(script), steps).written), LinesOf(Run(Start(script), steps).accepted))
  {
    hide Run, AllEnabled, Subsequence, LinesOf;
    RunSound(script, steps);
    RunInOrder(script, steps);
    var s := Run(Start(script), steps);
    if !s.hand.Free? {
      DoneInOrder(s, s.written);
    }
    LinesTaken(s.taken, s.queue);
    SubsequenceTransitive(Texts(s.written), LinesOf(s.taken), LinesOf(s.accepted));
  }

  /** Every line is accepted, save those submitted to a full queue. */
  lemma {:induction false} RefusedWhenFull(script: seq<Result>, steps: seq<Step>)
    requires AllEnabled(Start(script), steps)
    ensures var s := Run(Start(script), steps);
            s.submitted == Total(s.accepted, IsLine) + SubmittedToFull(script, steps)
  {
    if steps != [] {
      RefusedWhenFull(script, steps[..|steps| - 1]);
      RefusedStep(Run(Start(script), steps[..|steps| - 1]), steps[|steps| - 1]);
    }
  }

  lemma {:induction false} RefusedStep(s: State, step: Step)
    requires Enabled(s, step)
    ensures var t := Next(s, step);
            t.submitted - Total(t.accepted, IsLine) ==
            s.submitted - Total(s.accepted, IsLine) + if step.Submit? && |s.queue| >= 1024 then 1 else 0
  {
    hide Total, Lined;
    if step.Submit? {
      TotalMore(s.accepted, Line(step.line), IsLine);
    } else if step.AskFlush? {
      TotalMore(s.accepted, Flush, IsLine);
    }
  }

  /** When exactly a line is written at the start of a line: a broken-off one is always ended first,
      a complete message that ended without a newline is not. */
  lemma {:induction false} StartsLineIff(d: Device, line: seq<byte>)
    requires Lined(d, line).1
    ensures |line| <= |Lined(d, line).0.out|
    ensures AtLineStart(Lined(d, line).0.out, |Lined(d, line).0.out| - |line|) <==>
            d.torn || AtLineStart(d.out, |d.out|)
  {
    var ended := if d.torn then d.out + [NEWLINE] else d.out;
    assert Lined(d, line).0.out == ended + line;
  }

  /** When a flush request is answered, every line accepted before it has been written or counted. */
  lemma {:induction false} FlushMeansHandled(script: seq<Result>, steps: seq<Step>)
    requires AllEnabled(Start(script), steps)
    requires var s := Run(Start(script), steps); Enabled(s, Receive) && s.queue[0].Flush?
    ensures var s := Next(Run(Start(script), steps), Receive);
            && s.accepted == s.taken + s.queue
            && s.submitted == |s.written| + Total(s.queue, IsLine) + s.dropped + s.reported + s.rejecting
  {
    RunSound(script, steps);
    StepSound(Run(Start(script), steps), Receive);
  }

  // The thread's own code

  /** What ends a line that broke off. */
  function Ending(torn: bool): seq<byte> {
    if torn then [10] else []
  }

  class Stderr {
    var device: Device
    /** Shared with the callers. */
    var dropped: nat

    /** Write all of `buf`, or say how much was written before the failure. */
    method WriteCounting(buf: seq<byte>) returns (ok: bool, written: nat)
      modifies this`device
      ensures written <= |buf| && ok == (written == |buf|)
      ensures (written, device.script) == Accepted(|buf|, old(device.script))
      ensures ok <==> |buf| <= Capacity(old(device.script))
      ensures !ok ==> written == Capacity(old(device.script))
      ensures device.out == old(device.out) + buf[..written] && device.torn == old(device.torn)
    {
      hide Capacity, Accepted;
      written := 0;
      ghost var all := Accepted(|buf|, device.script);
      AcceptedIs(|buf|, device.script);
      NothingWanted();
      while written < |buf|
        invariant written <= |buf| && device.torn == old(device.torn)
        invariant device.out == old(device.out) + buf[..written]
        invariant all.0 == written + Accepted(|buf| - written, device.script).0
        invariant all.1 == Accepted(|buf| - written, device.script).1
        decreases |device.script|
      {
        AcceptedOnce(|buf| - written, device.script);
        if device.script == [] {
          return false, written;
        }
        var result := device.script[0];
        device := device.(script := device.script[1..]);
        match result {
          case Took(n) =>
            if n == 0 {
              return false, written;
            }
            var k := if n < |buf| - written then n else |buf| - written;
            device := device.(out := device.out + buf[written..written + k]);
            assert buf[..written + k] == buf[..written] + buf[written..written + k];
            written := written + k;
          case Interrupted =>
          case Broken => return false, written;
        }
      }
      ok := true;
    }

    method WriteLine(line: seq<byte>) returns (ok: bool)
      modifies this`device
      ensures (device, ok) == Lined(old(device), line)
      ensures ok ==> !device.torn && device.out == old(device.out) + Ending(old(device.torn)) + line
      ensures !ok ==>
                || (device.torn && device.out == old(device.out))
                || exists n | 0 <= n < |line| ::
                     device.out == old(device.out) + Ending(old(device.torn)) + line[..n] && device.torn == (n > 0)
    {
      var written;
      if device.torn {
        ok, written := WriteCounting([NEWLINE]);
        assert [NEWLINE][..written] == if ok then [NEWLINE] else [];
        if !ok {
          assert device.out == old(device).out;
          return;
        }
        device := device.(torn := false);
      }
      ok, written := WriteCounting(line);
      if !ok {
        device := device.(torn := written > 0);
      }
    }

    /** What the thread does with one line when no caller interferes. `note` reports what was lost. */
    method HandleLine(line: seq<byte>, note: nat -> seq<byte>) returns (ok: bool)
      modifies this
      ensures (device, dropped, ok) == Handled(old(device), old(dropped), line, note)
      ensures ok ==> dropped == 0 && !device.torn
                     && device.out == old(device.out) + Ending(old(device.torn))
                                      + (if old(dropped) > 0 then note(old(dropped)) else []) + line
      ensures !ok ==> dropped == old(dropped) + 1
                      || (dropped == 1 && old(device.out) + Ending(old(device.torn)) + note(old(dropped)) <= device.out)
    {
      var lost := dropped;
      dropped := 0;
      if lost > 0 {
        ok := WriteLine(note(lost));
        if !ok {
          dropped := dropped + lost + 1;
          return;
        }
      }
      ok := WriteLine(line);
      if !ok {
        dropped := dropped + 1;
      }
    }
  }

  function Handled(device: Device, dropped: nat, line: seq<byte>, note: nat -> seq<byte>): (Device, nat, bool) {
    if dropped > 0 then
      var (noted, ok) := Lined(device, note(dropped));
      if !ok then (noted, dropped + 1, false)
      else
        var (after, done) := Lined(noted, line);
        (after, if done then 0 else 1, done)
    else
      var (after, done) := Lined(device, line);
      (after, if done then 0 else 1, done)
  }

  /** The thread's code, run without interference, is those steps of the machine. */
  lemma {:induction false} HandlingIsSteps(s: State, note: nat -> seq<byte>)
    requires s.hand.Free? && s.queue != [] && s.queue[0].Line?
    ensures var fetched := Next(s, Receive);
            var swapped := Next(fetched, SwapDropped);
            var noted := if swapped.hand.Noting? then Next(swapped, WriteNote(note(s.dropped))) else swapped;
            var done := if noted.hand.Writing? then Next(noted, WriteLine) else noted;
            && (done.device, done.dropped, |done.written| > |s.written|) ==
              Handled(s.device, s.dropped, s.queue[0].line, note)
            && done.hand.Free?
  {
  }
}
