/** When failing writes are worth a notice: once when they begin, now and then while they go on,
    once when they are over. Times are in nanoseconds. */
module WriteHealth {
  import opened Basics

  const U64_MAX: nat := 0xFFFF_FFFF_FFFF_FFFF
  const REPORT_INTERVAL: nat := 600_000_000_000
  const QUIET_PERIOD: nat := 60_000_000_000

  datatype Streak = Streak(since: nat, failures: nat, lastFailure: nat, lastReport: nat)

  datatype Report = Silent | Started | Ongoing(failures: nat, elapsed: nat) | Recovered(failures: nat, elapsed: nat)

  datatype Event = Event(failed: bool, at: nat)

  function Since(now: nat, earlier: nat): nat {
    if now < earlier then 0 else now - earlier
  }

  function Counted(n: nat): nat {
    if n < 18_446_744_073_709_551_615 then n else 18_446_744_073_709_551_615
  }

  class Health {
    var failing: Option<Streak>

    constructor ()
      ensures failing == None
    {
      failing := None;
    }

    method OnFailure(now: nat) returns (report: Report)
      modifies this
      ensures (failing, report) == After(old(failing), Event(true, now))
    {
      if failing.None? {
        failing := Some(Streak(now, 1, now, now));
        return Started;
      }
      var streak := failing.value;
      streak := streak.(
        failures := if streak.failures < U64_MAX then streak.failures + 1 else U64_MAX,
        lastFailure := now);
      if Since(now, streak.lastReport) < REPORT_INTERVAL {
        failing := Some(streak);
        return Silent;
      }
      streak := streak.(lastReport := now);
      failing := Some(streak);
      return Ongoing(streak.failures, Since(now, streak.since));
    }

    method OnSuccess(now: nat) returns (report: Report)
      modifies this
      ensures (failing, report) == After(old(failing), Event(false, now))
    {
      if failing.Some? && Since(now, failing.value.lastFailure) >= QUIET_PERIOD {
        report := Recovered(failing.value.failures, Since(now, failing.value.since));
        failing := None;
      } else {
        report := Silent;
      }
    }

    /** A whole run of writes. */
    method Watch(events: seq<Event>) returns (reports: seq<Report>)
      requires failing == None
      modifies this
      ensures reports == Reports(events) && failing == StateAfter(events)
    {
      reports := [];
      for i := 0 to |events|
        invariant reports == Reports(events[..i]) && failing == StateAfter(events[..i])
      {
        assert events[..i + 1][..i] == events[..i];
        var report;
        if events[i].failed {
          report := OnFailure(events[i].at);
        } else {
          report := OnSuccess(events[i].at);
        }
        reports := reports + [report];
      }
      assert events[..|events|] == events;
    }
  }

  function After(s: Option<Streak>, e: Event): (Option<Streak>, Report) {
    match s
    case None => if e.failed then (Some(Streak(e.at, 1, e.at, e.at)), Started) else (None, Silent)
    case Some(k) =>
      if e.failed then
        var n := if k.failures < U64_MAX then k.failures + 1 else U64_MAX;
        if Since(e.at, k.lastReport) < REPORT_INTERVAL then (Some(k.(failures := n, lastFailure := e.at)), Silent)
        else (Some(k.(failures := n, lastFailure := e.at, lastReport := e.at)), Ongoing(n, Since(e.at, k.since)))
      else if Since(e.at, k.lastFailure) >= QUIET_PERIOD then (None, Recovered(k.failures, Since(e.at, k.since)))
      else (s, Silent)
  }

  function StateAfter(events: seq<Event>): Option<Streak> {
    if events == [] then None else After(StateAfter(events[..|events| - 1]), events[|events| - 1]).0
  }

  function Reports(events: seq<Event>): (reports: seq<Report>)
    ensures |reports| == |events|
  {
    if events == [] then []
    else
      var front := events[..|events| - 1];
      Reports(front) + [After(StateAfter(front), events[|events| - 1]).1]
  }

  // The same reports, told from the history of writes and notices alone

  /** Where the last notice is. */
  function LastNotice(reports: seq<Report>): (i: Option<nat>)
    ensures i.Some? ==> i.value < |reports| && reports[i.value] != Silent
    ensures forall j | 0 <= j < |reports| && (i.Some? ==> i.value < j) :: reports[j] == Silent
  {
    if reports == [] then None
    else if reports[|reports| - 1] != Silent then Some(|reports| - 1)
    else LastNotice(reports[..|reports| - 1])
  }

  function LastStart(reports: seq<Report>): (i: Option<nat>)
    ensures i.Some? ==> i.value < |reports| && reports[i.value] == Started
    ensures forall j | 0 <= j < |reports| && (i.Some? ==> i.value < j) :: reports[j] != Started
  {
    if reports == [] then None
    else if reports[|reports| - 1] == Started then Some(|reports| - 1)
    else LastStart(reports[..|reports| - 1])
  }

  function LastFailure(events: seq<Event>): (i: Option<nat>)
    ensures i.Some? ==> i.value < |events| && events[i.value].failed
    ensures forall j | 0 <= j < |events| && (i.Some? ==> i.value < j) :: !events[j].failed
  {
    if events == [] then None
    else if events[|events| - 1].failed then Some(|events| - 1)
    else LastFailure(events[..|events| - 1])
  }

  function Failures(events: seq<Event>): nat {
    if events == [] then 0
    else Failures(events[..|events| - 1]) + if events[|events| - 1].failed then 1 else 0
  }

  /** The last notice was not that all is well again. */
  predicate InOutage(reports: seq<Report>) {
    LastNotice(reports).Some? && !reports[LastNotice(reports).value].Recovered?
  }

  /** An outage has a notice, a start and a failure to point at. */
  predicate Grounded(events: seq<Event>, reports: seq<Report>) {
    && |reports| == |events|
    && (InOutage(reports) ==> LastStart(reports).Some? && LastFailure(events).Some?)
  }

  /** How long ago it was; nothing if the clock says it is yet to come. */
  predicate Elapsed(d: nat, now: nat, earlier: nat) {
    d + earlier == if now < earlier then earlier else now
  }

  /** Which notice a write deserves, given all that went before; ten minutes pass between reminders, and
      all is well after one minute without a failure. */
  predicate Deserved(events: seq<Event>, reports: seq<Report>, e: Event, report: Report)
    requires Grounded(events, reports)
  {
    if !InOutage(reports) then report == if e.failed then Started else Silent
    else
      var start, notice, failure := LastStart(reports).value, LastNotice(reports).value, LastFailure(events).value;
      if e.failed then
        if e.at < events[notice].at + 600_000_000_000 then report == Silent
        else
          && report.Ongoing? && report.failures == Counted(Failures(events[start..]) + 1)
          && Elapsed(report.elapsed, e.at, events[start].at)
      else if e.at < events[failure].at + 60_000_000_000 then report == Silent
      else
        && report.Recovered? && report.failures == Counted(Failures(events[start..]))
        && Elapsed(report.elapsed, e.at, events[start].at)
  }

  predicate Tracks(s: Option<Streak>, events: seq<Event>, reports: seq<Report>)
    requires Grounded(events, reports)
  {
    if !InOutage(reports) then s == None
    else
      var start := LastStart(reports).value;
      && s.Some?
      && s.value.since == events[start].at
      && s.value.failures == Counted(Failures(events[start..]))
      && s.value.lastFailure == events[LastFailure(events).value].at
      && s.value.lastReport == events[LastNotice(reports).value].at
  }

  lemma {:induction false} HistoryGrows(events: seq<Event>, reports: seq<Report>, e: Event, report: Report)
    requires |events| == |reports|
    ensures LastNotice(reports + [report]) == if report != Silent then Some(|reports|) else LastNotice(reports)
    ensures LastStart(reports + [report]) == if report == Started then Some(|reports|) else LastStart(reports)
    ensures LastFailure(events + [e]) == if e.failed then Some(|events|) else LastFailure(events)
    ensures forall k | 0 <= k <= |events| ::
            Failures((events + [e])[k..]) == Failures(events[k..]) + if e.failed then 1 else 0
  {
    assert (reports + [report])[..|reports|] == reports;
    assert (events + [e])[..|events|] == events;
    forall k | 0 <= k <= |events|
      ensures Failures((events + [e])[k..]) == Failures(events[k..]) + if e.failed then 1 else 0 {
      assert (events + [e])[k..] == events[k..] + [e];
      assert (events[k..] + [e])[..|events[k..]|] == events[k..];
    }
  }

  lemma {:induction false} TrackStep(s: Option<Streak>, events: seq<Event>, reports: seq<Report>, e: Event)
    requires Grounded(events, reports) && Tracks(s, events, reports)
    ensures var (after, report) := After(s, e);
            && Deserved(events, reports, e, report)
            && Grounded(events + [e], reports + [report])
            && Tracks(after, events + [e], reports + [report])
  {
    var (after, report) := After(s, e);
    HistoryGrows(events, reports, e, report);
    hide LastNotice, LastStart, LastFailure, Failures;
    assert events[|events|..] == [];
    assert Failures([]) == 0 by { NoFailures(); }
  }

  lemma {:induction false} NoFailures()
    ensures Failures([]) == 0
  {
  }

  lemma {:induction false} RunTracks(events: seq<Event>)
    ensures Grounded(events, Reports(events)) && Tracks(StateAfter(events), events, Reports(events))
  {
    if events != [] {
      var front, last := events[..|events| - 1], events[|events| - 1];
      RunTracks(front);
      TrackStep(StateAfter(front), front, Reports(front), last);
      assert front + [last] == events;
    }
  }

  lemma {:induction false} ReportsPrefix(events: seq<Event>, i: nat)
    requires i <= |events|
    ensures Reports(events[..i]) == Reports(events)[..i]
  {
    if i < |events| {
      ReportsPrefix(events[..|events| - 1], i);
      assert events[..|events| - 1][..i] == events[..i];
    } else {
      assert events[..i] == events;
    }
  }

  /** Every write gets exactly the notice it deserves: the first failure of an outage starts it; a
      later failure is reported when the last notice is ten minutes old; a success ends the outage
      when the last failure is a minute old; nothing else is said. The numbers count the failures
      and the time since the notice that started the outage. */
  lemma {:induction false} EveryReportDeserved(events: seq<Event>, i: nat)
    requires i < |events|
    ensures Grounded(events[..i], Reports(events)[..i])
    ensures Deserved(events[..i], Reports(events)[..i], events[i], Reports(events)[i])
  {
    ReportsPrefix(events, i);
    ReportsPrefix(events, i + 1);
    RunTracks(events[..i]);
    TrackStep(StateAfter(events[..i]), events[..i], Reports(events[..i]), events[i]);
    assert events[..i + 1][..i] == events[..i];
  }

  // The shape of the notices

  function Notices(reports: seq<Report>): seq<Report> {
    if reports == [] then []
    else
      var front, last := Notices(reports[..|reports| - 1]), reports[|reports| - 1];
      if last == Silent then front else front + [last]
  }

  /** One outage: it starts, may go on, and is recovered from. */
  predicate IsGroup(group: seq<Report>, complete: bool) {
    && group != [] && group[0] == Started
    && (forall j | 1 <= j < |group| - (if complete then 1 else 0) :: group[j].Ongoing?)
    && (complete ==> |group| >= 2 && group[|group| - 1].Recovered?)
  }

  ghost predicate Groups(notices: seq<Report>)
    decreases |notices|
  {
    notices == [] || exists k | 0 <= k < |notices| :: IsGroup(notices[k..], true) && Groups(notices[..k])
  }

  ghost predicate OpenGroup(notices: seq<Report>) {
    exists k | 0 <= k < |notices| :: IsGroup(notices[k..], false) && Groups(notices[..k])
  }

  lemma {:induction false} GroupGrows(notices: seq<Report>, report: Report)
    requires OpenGroup(notices)
    ensures report.Ongoing? ==> OpenGroup(notices + [report])
    ensures report.Recovered? ==> Groups(notices + [report])
  {
    var k :| 0 <= k < |notices| && IsGroup(notices[k..], false) && Groups(notices[..k]);
    var more := notices + [report];
    SlicesMore(notices, report, k);
    OneGroupGrows(notices[k..], report);
    hide IsGroup;
  }

  lemma {:induction false} SlicesMore(notices: seq<Report>, report: Report, k: nat)
    requires k <= |notices|
    ensures (notices + [report])[k..] == notices[k..] + [report]
    ensures (notices + [report])[..k] == notices[..k]
  {
  }

  lemma {:induction false} OneGroupGrows(group: seq<Report>, report: Report)
    requires IsGroup(group, false)
    ensures report.Ongoing? ==> IsGroup(group + [report], false)
    ensures report.Recovered? ==> IsGroup(group + [report], true)
  {
  }

  /** The notices are complete outages one after the other, the last perhaps unfinished; and which
      of the two it is, is what the writer remembers. */
  lemma {:induction false} NoticesFormGroups(events: seq<Event>)
    ensures var notices := Notices(Reports(events));
            if StateAfter(events).None? then Groups(notices) else OpenGroup(notices)
  {
    if events != [] {
      var front, last := events[..|events| - 1], events[|events| - 1];
      NoticesFormGroups(front);
      var notices, report := Notices(Reports(front)), After(StateAfter(front), last).1;
      assert Reports(events)[..|front|] == Reports(front);
      if StateAfter(front).Some? {
        GroupGrows(notices, report);
      } else if last.failed {
        assert (notices + [report])[|notices|..] == [report] && (notices + [report])[..|notices|] == notices;
        assert IsGroup((notices + [report])[|notices|..], false);
      }
    }
  }
}
