/** Appending to one file a day. A batch goes to the file of the day it is written on; changing
    files first repairs (and, for JSONL, syncs) the file that is left. */
module DailyFiles {
  import opened Basics
  import opened JsonlStore

  /** A calendar day. Nothing says that days only go forward. */
  type Date = int

  /** What goes wrong during one write. Only a change of day repairs, syncs, opens and recovers. */
  datatype DayFaults = DayFaults(repair: Cut, sync: bool, create: bool, scan: bool, recover: Cut, append: Faults)

  /** The directory, the file being written, and the content each file had when it was last synced. */
  datatype Days = Days(files: map<Date, seq<byte>>, date: Date, rollback: Option<nat>, synced: map<Date, seq<byte>>)

  function At(files: map<Date, seq<byte>>, d: Date): seq<byte> {
    if d in files then files[d] else []
  }

  predicate OpenOk(found: seq<byte>, f: DayFaults) {
    f.create && f.scan && (f.recover == CutOk || CompleteLen(found) == |found|)
  }

  /** What opening a day's file leaves in it, whether or not the opening succeeds. */
  function Found(found: seq<byte>, f: DayFaults): seq<byte> {
    if f.scan then AfterCut(found, CompleteLen(found), f.recover) else found
  }

  /** Before a file is given up, its rollback is made good and, if asked for, it is synced. */
  function Settled(s: Days, syncs: bool, f: DayFaults): (Days, bool) {
    var r := Repaired(Store(At(s.files, s.date), s.rollback), f.repair);
    var repaired := s.(files := s.files[s.date := r.bytes], rollback := r.rollback);
    if r.rollback.Some? || (syncs && !f.sync) then (repaired, false)
    else (if syncs then repaired.(synced := s.synced[s.date := r.bytes]) else repaired, true)
  }

  /** Only when the next day's file is open does the writer move to it. */
  function Entered(s: Days, day: Date, f: DayFaults): (Days, bool) {
    if !f.create then (s, false)
    else
      var found := At(s.files, day);
      var looked := s.(files := s.files[day := Found(found, f)]);
      if OpenOk(found, f) then (looked.(date := day, rollback := None), true) else (looked, false)
  }

  function Rotated(s: Days, day: Date, syncs: bool, f: DayFaults): (Days, bool) {
    var (settled, ok) := Settled(s, syncs, f);
    if ok then Entered(settled, day, f) else (settled, false)
  }

  function Stored(s: Days, data: seq<byte>, f: Faults): (Days, bool) {
    var (store, ok) := Appended(Store(At(s.files, s.date), s.rollback), data, f);
    (s.(files := s.files[s.date := store.bytes], rollback := store.rollback), ok)
  }

  function AppendedAt(s: Days, data: seq<byte>, day: Date, syncs: bool, f: DayFaults): (Days, bool) {
    var (r, ok) := if s.date == day then (s, true) else Rotated(s, day, syncs, f);
    if ok then Stored(r, data, f.append) else (r, false)
  }

  class DailyWriter {
    const syncOnRotate: bool
    /** The directory's other files. */
    var others: map<Date, seq<byte>>
    var date: Date
    var file: TransactionalAppend
    ghost var synced: map<Date, seq<byte>>

    ghost function Abs(): Days
      reads this, file
    {
      Days(others[date := file.bytes], date, file.rollback, synced)
    }

    ghost predicate Valid()
      reads this, file
    {
      file.Valid()
    }

    /** A writer over a file that `OpenFile` opened. */
    constructor (others: map<Date, seq<byte>>, day: Date, opening: TransactionalAppend, syncs: bool)
      requires opening.Valid()
      ensures Valid() && syncOnRotate == syncs && file == opening
      ensures Abs() == Days(others[day := opening.bytes], day, opening.rollback, map[])
    {
      this.others := others;
      date := day;
      file := opening;
      syncOnRotate := syncs;
      synced := map[];
    }

    /** Open one day's file: it is created when missing, and a torn last line is cut off. */
    static method OpenFile(found: seq<byte>, f: DayFaults) returns (opening: TransactionalAppend, ok: bool)
      ensures fresh(opening) && opening.Abs() == Store(if f.create then Found(found, f) else found, None)
      ensures ok == OpenOk(found, f)
    {
      opening := new TransactionalAppend(found);
      ok := f.create && f.scan;
      if ok {
        ok := opening.RecoverTail(f.recover);
      }
    }

    method SyncFile(ok: bool)
      modifies this`synced
      ensures synced == if ok then old(synced)[date := file.bytes] else old(synced)
    {
      if ok {
        synced := synced[date := file.bytes];
      }
    }

    method Settle(f: DayFaults) returns (ok: bool)
      requires Valid()
      modifies file, this`synced
      ensures Valid() && (Abs(), ok) == Settled(old(Abs()), syncOnRotate, f)
    {
      ok := file.Repair(f.repair);
      assert others[date := file.bytes] == others[date := old(file.bytes)][date := file.bytes];
      if ok && syncOnRotate {
        SyncFile(f.sync);
        ok := f.sync;
      }
    }

    method Rotate(day: Date, f: DayFaults) returns (ok: bool)
      requires Valid() && day != date
      modifies this, file
      ensures Valid() && (file == old(file) || fresh(file))
      ensures (Abs(), ok) == Rotated(old(Abs()), day, syncOnRotate, f)
    {
      ok := Settle(f);
      if !ok || !f.create {
        return false;
      }
      var next;
      next, ok := OpenFile(if day in others then others[day] else [], f);
      ghost var looked := Abs().files[day := next.bytes];
      if ok {
        others := others[date := file.bytes];
        file := next;
        date := day;
      } else {
        others := others[day := next.bytes];
      }
      assert looked == Abs().files;
    }

    method AppendAt(data: seq<byte>, day: Date, f: DayFaults) returns (ok: bool)
      requires Valid()
      modifies this, file
      ensures Valid() && (file == old(file) || fresh(file))
      ensures (Abs(), ok) == AppendedAt(old(Abs()), data, day, syncOnRotate, f)
      ensures ok <==>
              && (if day == old(date) then old(file.rollback).None? || f.append.repair == CutOk
                  else && (old(file.rollback).None? || f.repair == CutOk)
                       && (syncOnRotate ==> f.sync)
                       && f.create && f.scan
                       && (f.recover == CutOk || Terminated(At(old(others), day))))
              && f.append.start && |data| <= f.append.accepts && f.append.flush
    {
      TerminatedIff(At(others, day));
      hide CompleteLen, AfterCut, Written;
      if date != day {
        ok := Rotate(day, f);
        if !ok {
          return;
        }
      }
      ghost var was := file.bytes;
      ok := file.Append(data, f.append);
      assert others[date := file.bytes] == others[date := was][date := file.bytes];
    }
  }

  // Runs

  datatype Op = Batch(data: seq<byte>, day: Date, faults: DayFaults) | SyncAll(ok: bool)

  /** `log` lists the batches that were acknowledged; `left` the days that once were current. */
  datatype Run = Run(days: Days, log: seq<(Date, seq<byte>)>, left: set<Date>)

  function Next(h: Run, op: Op, syncs: bool): Run {
    match op
    case Batch(data, day, f) =>
      var (days, ok) := AppendedAt(h.days, data, day, syncs, f);
      Run(days, if ok then h.log + [(day, data)] else h.log, h.left + {days.date})
    case SyncAll(ok) =>
      if ok then h.(days := h.days.(synced := h.days.synced[h.days.date := At(h.days.files, h.days.date)])) else h
  }

  function RunAll(h: Run, ops: seq<Op>, syncs: bool): Run {
    if ops == [] then h else Next(RunAll(h, ops[..|ops| - 1], syncs), ops[|ops| - 1], syncs)
  }

  /** A writer just opened on a day of a directory. */
  function Opened(init: map<Date, seq<byte>>, day: Date): Run {
    Run(Days(init[day := Recovered(At(init, day))], day, None, map[]), [], {day})
  }

  /** The acknowledged bytes of one day, in order. */
  function Acked(log: seq<(Date, seq<byte>)>, d: Date): seq<byte> {
    if log == [] then []
    else
      var front, last := log[..|log| - 1], log[|log| - 1];
      if last.0 == d then Acked(front, d) + last.1 else Acked(front, d)
  }

  function Expected(init: map<Date, seq<byte>>, log: seq<(Date, seq<byte>)>, d: Date): seq<byte> {
    Recovered(At(init, d)) + Acked(log, d)
  }

  predicate Complete(s: seq<byte>) {
    CompleteLen(s) == |s|
  }

  /** The file being written: complete, unless a rollback is outstanding. */
  predicate CurrentSound(days: Days, want: seq<byte>) {
    && days.date in days.files
    && match days.rollback
       case None => days.files[days.date] == want
       case Some(n) => n == |want| && want <= days.files[days.date]
  }

  ghost predicate LeftSound(init: map<Date, seq<byte>>, h: Run, syncs: bool, d: Date) {
    && d in h.days.files && h.days.files[d] == Expected(init, h.log, d)
    && (syncs ==> d in h.days.synced && h.days.synced[d] == h.days.files[d])
  }

  /** A file never written by this run has at most lost its torn tail. */
  predicate UntouchedSound(init: map<Date, seq<byte>>, h: Run, d: Date) {
    && Acked(h.log, d) == []
    && (d !in h.days.files ==> d !in init)
    && (At(h.days.files, d) == At(init, d) || At(h.days.files, d) == Recovered(At(init, d)))
  }

  ghost predicate OtherSound(init: map<Date, seq<byte>>, h: Run, syncs: bool, d: Date) {
    if d in h.left then LeftSound(init, h, syncs, d) else UntouchedSound(init, h, d)
  }

  ghost predicate OthersSound(init: map<Date, seq<byte>>, h: Run, syncs: bool) {
    forall d | d != h.days.date :: OtherSound(init, h, syncs, d)
  }

  /** What every day should hold ends in a newline. */
  ghost predicate WholeLines(init: map<Date, seq<byte>>, log: seq<(Date, seq<byte>)>) {
    forall d :: Complete(Expected(init, log, d))
  }

  ghost predicate Sound(init: map<Date, seq<byte>>, h: Run, syncs: bool) {
    && h.days.date in h.left
    && CurrentSound(h.days, Expected(init, h.log, h.days.date))
    && OthersSound(init, h, syncs)
    && WholeLines(init, h.log)
  }

  predicate Terminated(data: seq<byte>) {
    data == [] || data[|data| - 1] == NEWLINE
  }

  lemma {:induction false} TerminatedIff(s: seq<byte>)
    ensures Terminated(s) <==> Complete(s)
  {
  }

  lemma {:induction false} CompleteGrows(s: seq<byte>, data: seq<byte>)
    requires Complete(s) && Terminated(data)
    ensures Complete(s + data)
  {
    assert data == [] ==> s + data == s;
  }

  lemma {:induction false} RecoveredComplete(s: seq<byte>)
    ensures Complete(Recovered(s))
    ensures Complete(s) ==> Recovered(s) == s
    ensures Recovered(Recovered(s)) == Recovered(s)
  {
    RecoveredIsComplete(s);
  }

  lemma {:induction false} AckedMore(log: seq<(Date, seq<byte>)>, day: Date, data: seq<byte>, d: Date)
    ensures Acked(log + [(day, data)], d) == if day == d then Acked(log, d) + data else Acked(log, d)
  {
    assert (log + [(day, data)])[..|log|] == log;
  }

  /** An append to the current file keeps every complete byte and adds the batch exactly when it succeeds. */
  lemma {:induction false} StoredSound(s: Days, data: seq<byte>, f: Faults, want: seq<byte>)
    requires CurrentSound(s, want)
    ensures var (after, ok) := Stored(s, data, f);
            CurrentSound(after, if ok then want + data else want)
  {
    var r := Repaired(Store(s.files[s.date], s.rollback), f.repair);
    if r.rollback.None? {
      assert r.bytes == want;
      assert (want + Written(data, f))[..|want|] == want;
    }
  }

  lemma {:induction false} BatchLog(init: map<Date, seq<byte>>, log: seq<(Date, seq<byte>)>, day: Date, data: seq<byte>)
    requires WholeLines(init, log) && Terminated(data)
    ensures WholeLines(init, log + [(day, data)])
    ensures Expected(init, log + [(day, data)], day) == Expected(init, log, day) + data
  {
    hide Acked, Recovered, Complete;
    var more := log + [(day, data)];
    AckedMore(log, day, data, day);
    assert Recovered(At(init, day)) + (Acked(log, day) + data) == Expected(init, log, day) + data;
    forall d ensures Complete(Expected(init, more, d)) {
      AckedMore(log, day, data, d);
      assert Complete(Expected(init, log, d));
      CompleteGrows(Expected(init, log, d), data);
    }
  }

  /** A step that only touches one day keeps every other day as it should be. */
  lemma {:induction false} OtherDay(init: map<Date, seq<byte>>, h: Run, n: Run, syncs: bool, day: Date, d: Date)
    requires d != day && OtherSound(init, h, syncs, d) && (d in n.left <==> d in h.left)
    requires Acked(n.log, d) == Acked(h.log, d)
    requires n.days.files - {day} == h.days.files - {day} && n.days.synced - {day} == h.days.synced - {day}
    ensures OtherSound(init, n, syncs, d)
  {
    hide CompleteLen, Acked, Recovered;
    assert d in n.days.files - {day} <==> d in n.days.files;
    assert d in h.days.files - {day} <==> d in h.days.files;
    assert d in n.days.synced - {day} <==> d in n.days.synced;
    assert d in h.days.synced - {day} <==> d in h.days.synced;
  }

  /** Leaving a day: its file is exactly what was acknowledged and (with sync) on disk. */
  lemma {:induction false} SettledSound(init: map<Date, seq<byte>>, h: Run, syncs: bool, f: DayFaults)
    requires Sound(init, h, syncs)
    ensures var (days, ok) := Settled(h.days, syncs, f);
            && days.date == h.days.date
            && Sound(init, Run(days, h.log, h.left), syncs)
            && (ok ==> LeftSound(init, Run(days, h.log, h.left), syncs, days.date))
  {
    hide CompleteLen, Acked, WholeLines, Expected;
    var s, date := h.days, h.days.date;
    var want := Expected(init, h.log, date);
    assert want <= s.files[date] ==> s.files[date][..|want|] == want;
    var n := Run(Settled(s, syncs, f).0, h.log, h.left);
    forall d | d != date ensures OtherSound(init, n, syncs, d) {
      OtherDay(init, h, n, syncs, date, d);
    }
  }

  /** The day that is opened starts from exactly its own acknowledged bytes, even when it was left before. */
  lemma {:induction false} FoundSound(init: map<Date, seq<byte>>, h: Run, day: Date, syncs: bool, f: DayFaults)
    requires Sound(init, h, syncs) && day != h.days.date
    ensures var found := At(h.days.files, day);
            && (day in h.left ==> Found(found, f) == found)
            && (OpenOk(found, f) ==> Found(found, f) == Expected(init, h.log, day))
            && (day !in h.left ==> Found(found, f) == At(init, day) || Found(found, f) == Recovered(At(init, day)))
  {
    hide CompleteLen, Acked;
    var found := At(h.days.files, day);
    RecoveredComplete(At(init, day));
    RecoveredComplete(found);
    assert found[..|found|] == found;
    if day in h.left {
      assert OtherSound(init, h, syncs, day) && Complete(Expected(init, h.log, day));
    } else {
      assert OtherSound(init, h, syncs, day);
      assert Recovered(At(init, day)) + [] == Recovered(At(init, day));
    }
  }

  /** An opening that fails leaves the day's file as sound as it was. */
  lemma {:induction false} LookedSound(init: map<Date, seq<byte>>, h: Run, n: Run, day: Date, syncs: bool, f: DayFaults)
    requires Sound(init, h, syncs) && day != h.days.date
    requires n == h.(days := h.days.(files := h.days.files[day := Found(At(h.days.files, day), f)]))
    ensures OtherSound(init, n, syncs, day)
  {
    FoundSound(init, h, day, syncs, f);
    hide CompleteLen, Acked, Found, Recovered, WholeLines, CurrentSound;
    assert OtherSound(init, h, syncs, day);
  }

  lemma {:induction false} EnteredSound(init: map<Date, seq<byte>>, h: Run, day: Date, syncs: bool, f: DayFaults)
    requires Sound(init, h, syncs) && LeftSound(init, h, syncs, h.days.date) && day != h.days.date
    ensures var (days, ok) := Entered(h.days, day, f);
            && Sound(init, Run(days, h.log, h.left + {days.date}), syncs)
            && (ok ==> days.date == day && days.rollback == None)
  {
    hide CompleteLen, Acked, Found, OpenOk, Recovered, Expected, WholeLines, UntouchedSound, LeftSound;
    var (days, ok) := Entered(h.days, day, f);
    var n := Run(days, h.log, h.left + {days.date});
    if f.create {
      FoundSound(init, h, day, syncs, f);
      forall d | d != days.date ensures OtherSound(init, n, syncs, d) {
        if d != day {
          OtherDay(init, h, n, syncs, day, d);
        } else {
          assert n.left == h.left;
          LookedSound(init, h, n, day, syncs, f);
        }
      }
    } else {
      assert h.left + {days.date} == h.left;
    }
  }

  lemma {:induction false} RotatedSound(init: map<Date, seq<byte>>, h: Run, day: Date, syncs: bool, f: DayFaults)
    requires Sound(init, h, syncs) && day != h.days.date
    ensures var (days, ok) := Rotated(h.days, day, syncs, f);
            && Sound(init, Run(days, h.log, h.left + {days.date}), syncs)
            && (ok ==> days.date == day && days.rollback == None)
  {
    SettledSound(init, h, syncs, f);
    var (settled, ok) := Settled(h.days, syncs, f);
    hide Settled, Entered, CompleteLen, Acked, CurrentSound, OthersSound, WholeLines, LeftSound;
    if ok {
      EnteredSound(init, Run(settled, h.log, h.left), day, syncs, f);
    } else {
      assert h.left + {settled.date} == h.left;
    }
  }

  lemma {:induction false} StepSound(init: map<Date, seq<byte>>, h: Run, op: Op, syncs: bool)
    requires Sound(init, h, syncs) && (op.Batch? ==> Terminated(op.data))
    ensures Sound(init, Next(h, op, syncs), syncs)
  {
    hide CompleteLen, Acked, Rotated, Stored;
    match op
    case SyncAll(ok) =>
      forall d | d != h.days.date ensures OtherSound(init, Next(h, op, syncs), syncs, d) {
        OtherDay(init, h, Next(h, op, syncs), syncs, h.days.date, d);
      }
    case Batch(data, day, f) =>
      if h.days.date != day {
        RotatedSound(init, h, day, syncs, f);
        var (days, ok) := Rotated(h.days, day, syncs, f);
        if ok {
          StoredKeeps(init, Run(days, h.log, h.left + {days.date}), data, syncs, f.append);
          assert h.left + {day} + {day} == h.left + {day};
        }
      } else {
        StoredKeeps(init, h, data, syncs, f.append);
        assert h.left + {day} == h.left;
      }
  }

  lemma {:induction false} StoredKeeps(init: map<Date, seq<byte>>, h: Run, data: seq<byte>, syncs: bool, f: Faults)
    requires Sound(init, h, syncs) && Terminated(data)
    ensures var (days, ok) := Stored(h.days, data, f);
            && days.date == h.days.date
            && Sound(init, Run(days, if ok then h.log + [(days.date, data)] else h.log, h.left), syncs)
  {
    hide CompleteLen, Acked;
    var (days, ok) := Stored(h.days, data, f);
    var n := Run(days, if ok then h.log + [(days.date, data)] else h.log, h.left);
    StoredSound(h.days, data, f, Expected(init, h.log, h.days.date));
    BatchLog(init, h.log, days.date, data);
    forall d | d != days.date ensures OtherSound(init, n, syncs, d) {
      AckedMore(h.log, days.date, data, d);
      OtherDay(init, h, n, syncs, days.date, d);
    }
  }

  /** Over every run, with any failures and with days in any order: the current file holds the
      complete lines it started with and then the acknowledged batches of its day, followed by a
      torn batch only while its rollback is outstanding; every file that was left holds exactly that
      and, with sync on rotation, was synced as it is; no other file has lost a complete line. */
  lemma {:induction false} RotationSafe(init: map<Date, seq<byte>>, day: Date, ops: seq<Op>, syncs: bool)
    requires forall op | op in ops && op.Batch? :: Terminated(op.data)
    ensures Sound(init, RunAll(Opened(init, day), ops, syncs), syncs)
  {
    if ops == [] {
      forall d ensures Complete(Expected(init, [], d)) {
        RecoveredComplete(At(init, d));
        assert Expected(init, [], d) == Recovered(At(init, d));
      }
    } else {
      var front, last := ops[..|ops| - 1], ops[|ops| - 1];
      assert last in ops;
      RotationSafe(init, day, front, syncs);
      StepSound(init, RunAll(Opened(init, day), front, syncs), last, syncs);
    }
  }
}
