/** Appending to one JSONL file over a disk whose writes, flushes and truncations may fail at any
    point, and what is left of it after a crash. */
module JsonlStore {
  import opened Basics

  const CHUNK: nat := 8192

  // Complete lines

  /** One past the last newline, 0 if there is none. */
  function CompleteLen(s: seq<byte>): (n: nat)
    ensures n <= |s|
  {
    if s == [] then 0 else if s[|s| - 1] == NEWLINE then |s| else CompleteLen(s[..|s| - 1])
  }

  function Recovered(s: seq<byte>): seq<byte> {
    s[..CompleteLen(s)]
  }

  /** A JSONL line: its only newline is its last byte. */
  predicate IsLine(line: seq<byte>) {
    line != [] && line[|line| - 1] == NEWLINE && NEWLINE !in line[..|line| - 1]
  }

  lemma {:induction false} CompleteLenIs(s: seq<byte>)
    ensures CompleteLen(s) == 0 || s[CompleteLen(s) - 1] == NEWLINE
    ensures NEWLINE !in s[CompleteLen(s)..]
  {
    if s != [] && s[|s| - 1] != NEWLINE {
      var front := s[..|s| - 1];
      CompleteLenIs(front);
      assert s[CompleteLen(s)..] == front[CompleteLen(front)..] + [s[|s| - 1]];
    }
  }

  lemma {:induction false} CompleteLenUnique(s: seq<byte>, n: nat)
    requires n <= |s| && (n == 0 || s[n - 1] == NEWLINE) && NEWLINE !in s[n..]
    ensures CompleteLen(s) == n
  {
    CompleteLenIs(s);
    var m := CompleteLen(s);
    assert forall k | m <= k < |s| :: s[k] in s[m..];
    assert forall k | n <= k < |s| :: s[k] in s[n..];
  }

  /** Recovery keeps complete lines and drops a torn one; a complete extra line stays. */
  lemma {:induction false} RecoveredTail(good: seq<byte>, tail: seq<byte>, line: seq<byte>)
    requires CompleteLen(good) == |good| && IsLine(line) && tail <= line
    ensures Recovered(good + tail) == if tail == line then good + line else good
  {
    CompleteLenIs(good);
    hide CompleteLen;
    var whole := good + tail;
    if tail == line {
      assert whole[|whole| - 1] == line[|line| - 1];
      CompleteLenUnique(whole, |whole|);
    } else {
      assert tail == line[..|line| - 1][..|tail|];
      assert whole[|good|..] == tail;
      CompleteLenUnique(whole, |good|);
      assert whole[..|good|] == good;
    }
  }

  lemma {:induction false} RecoveredIsComplete(s: seq<byte>)
    ensures CompleteLen(Recovered(s)) == |Recovered(s)|
  {
    CompleteLenIs(s);
    CompleteLenUnique(Recovered(s), |Recovered(s)|);
  }

  // Failing disk operations

  /** `set_len` failed, or it succeeded and only the seek after it failed. */
  datatype Cut = CutOk | CutFailed | CutThenFailed

  /** What goes wrong during one append: repairing an earlier failure, finding the end, the number of
      bytes the disk accepts, the flush, how many of the bytes reach the file when it fails, and undoing
      a failed write. */
  datatype Faults = Faults(repair: Cut, start: bool, accepts: nat, flush: bool, reach: nat, undo: Cut)

  /** The file's bytes, and the writer's note of where a failed append began. */
  datatype Store = Store(bytes: seq<byte>, rollback: Option<nat>)

  function AfterCut(bytes: seq<byte>, len: nat, cut: Cut): seq<byte> {
    if cut == CutFailed || len > |bytes| then bytes else bytes[..len]
  }

  function Repaired(s: Store, cut: Cut): Store {
    if s.rollback.None? then s
    else Store(AfterCut(s.bytes, s.rollback.value, cut), if cut == CutOk then None else s.rollback)
  }

  /** What reaches the file before it is known whether the append fails. */
  function Written(data: seq<byte>, f: Faults): seq<byte> {
    if f.accepts < |data| then data[..f.accepts]
    else if !f.flush && f.reach < |data| then data[..f.reach]
    else data
  }

  predicate WriteOk(data: seq<byte>, f: Faults) {
    |data| <= f.accepts && f.flush
  }

  function Appended(s: Store, data: seq<byte>, f: Faults): (Store, bool) {
    var r := Repaired(s, f.repair);
    if r.rollback.Some? || !f.start then (r, false)
    else
      var bytes := r.bytes + Written(data, f);
      if WriteOk(data, f) then (Store(bytes, None), true)
      else (Store(AfterCut(bytes, |r.bytes|, f.undo), if f.undo == CutOk then None else Some(|r.bytes|)), false)
  }

  class TransactionalAppend {
    var bytes: seq<byte>
    var rollback: Option<nat>
    /** Every content the file had: what a crash can leave behind. */
    ghost var seen: set<seq<byte>>

    ghost function Abs(): Store
      reads this
    {
      Store(bytes, rollback)
    }

    ghost predicate Valid()
      reads this
    {
      rollback.Some? ==> rollback.value <= |bytes|
    }

    constructor (contents: seq<byte>)
      ensures Abs() == Store(contents, None) && seen == {contents} && Valid()
    {
      bytes := contents;
      rollback := None;
      seen := {contents};
    }

    method Truncate(len: nat, cut: Cut) returns (ok: bool)
      requires len <= |bytes|
      modifies this`bytes, this`seen
      ensures bytes == AfterCut(old(bytes), len, cut) && ok == (cut == CutOk)
      ensures seen == old(seen) + {bytes}
    {
      if cut != CutFailed {
        bytes := bytes[..len];
      }
      seen := seen + {bytes};
      ok := cut == CutOk;
    }

    /** Any number of the bytes may reach the file before the write stops. */
    method WriteAll(data: seq<byte>, accepts: nat) returns (ok: bool)
      modifies this`bytes, this`seen
      ensures bytes == old(bytes) + (if accepts < |data| then data[..accepts] else data)
      ensures ok == (|data| <= accepts)
      ensures seen == old(seen) + (set j | 0 <= j <= |data| && j <= accepts :: old(bytes) + data[..j])
    {
      var j := 0;
      seen := seen + {bytes};
      assert data[..0] == [] && old(bytes) + [] == old(bytes);
      while j < |data| && j < accepts
        invariant 0 <= j <= |data| && j <= accepts
        invariant bytes == old(bytes) + data[..j]
        invariant seen == old(seen) + (set k | 0 <= k <= j :: old(bytes) + data[..k])
      {
        bytes := bytes + [data[j]];
        assert data[..j + 1] == data[..j] + [data[j]];
        seen := seen + {bytes};
        j := j + 1;
      }
      assert data[..|data|] == data;
      ok := j == |data|;
    }

    /** A flush that fails may leave only a beginning of what was written. */
    method Flush(start: nat, flushes: bool, reach: nat) returns (ok: bool)
      requires start <= |bytes|
      modifies this`bytes, this`seen
      ensures ok == flushes
      ensures bytes == if flushes || start + reach >= |old(bytes)| then old(bytes) else old(bytes)[..start + reach]
      ensures seen == old(seen) + {bytes}
    {
      if !flushes && start + reach < |bytes| {
        bytes := bytes[..start + reach];
      }
      seen := seen + {bytes};
      ok := flushes;
    }

    method Repair(cut: Cut) returns (ok: bool)
      requires Valid()
      modifies this
      ensures Valid() && Abs() == Repaired(old(Abs()), cut) && ok == rollback.None?
      ensures seen == old(seen) || seen == old(seen) + {bytes}
    {
      if rollback.Some? {
        ok := Truncate(rollback.value, cut);
        if !ok {
          return;
        }
        rollback := None;
      }
      ok := true;
    }

    method Append(data: seq<byte>, f: Faults) returns (ok: bool)
      requires Valid()
      modifies this
      ensures Valid() && (Abs(), ok) == Appended(old(Abs()), data, f)
      ensures seen <= old(seen) + Moments(old(Abs()), data, f)
      ensures ok <==> (old(rollback).None? || f.repair == CutOk) && f.start && |data| <= f.accepts && f.flush
      ensures ok ==> rollback.None?
                     && bytes == (if old(rollback).None? then old(bytes) else old(bytes)[..old(rollback).value]) + data
      ensures !ok ==>
                var base := if old(rollback).None? then old(bytes) else old(bytes)[..old(rollback).value];
                if old(rollback).Some? && f.repair != CutOk then
                  rollback == old(rollback) && bytes == if f.repair == CutThenFailed then base else old(bytes)
                else if !f.start then rollback == None && bytes == base
                else
                  && rollback == (if f.undo == CutOk then None else Some(|base|))
                  && base <= bytes && (f.undo != CutFailed ==> bytes == base)
    {
      ok := Repair(f.repair);
      if !ok || !f.start {
        return false;
      }
      var start := |bytes|;
      ghost var base := bytes;
      ok := WriteAll(data, f.accepts);
      if ok {
        ok := Flush(start, f.flush, f.reach);
      }
      assert Written(data, f) == data[..|Written(data, f)|];
      assert bytes == base + Written(data, f) && bytes[..start] == base;
      if !ok {
        rollback := Some(start);
        var undone := Truncate(start, f.undo);
        if undone {
          rollback := None;
        }
        return false;
      }
    }

    /** Where the last newline of a chunk is. */
    method LastNewline(chunk: seq<byte>) returns (pos: Option<nat>)
      ensures pos.None? ==> NEWLINE !in chunk
      ensures pos.Some? ==> pos.value < |chunk| && chunk[pos.value] == NEWLINE && NEWLINE !in chunk[pos.value + 1..]
    {
      var i := |chunk|;
      while i > 0
        invariant 0 <= i <= |chunk| && NEWLINE !in chunk[i..]
      {
        i := i - 1;
        if chunk[i] == NEWLINE {
          return Some(i);
        }
        assert chunk[i..] == [chunk[i]] + chunk[i + 1..];
      }
      return None;
    }

    /** Scan fixed-size chunks from the end for the last newline. */
    method FindCompleteLen() returns (validLen: nat)
      ensures validLen == CompleteLen(bytes)
    {
      var end := |bytes|;
      validLen := 0;
      while end != 0
        invariant 0 <= end <= |bytes| && NEWLINE !in bytes[end..]
        invariant validLen == 0
      {
        var start := if end < CHUNK then 0 else end - CHUNK;
        var pos := LastNewline(bytes[start..end]);
        if pos.Some? {
          validLen := start + pos.value + 1;
          assert bytes[validLen..] == bytes[start..end][pos.value + 1..] + bytes[end..];
          break;
        }
        assert bytes[start..] == bytes[start..end] + bytes[end..];
        end := start;
      }
      CompleteLenUnique(bytes, validLen);
    }

    /** Drop a torn last line. A file that ends in a newline is not touched. */
    method RecoverTail(cut: Cut) returns (ok: bool)
      modifies this`bytes, this`seen
      ensures bytes == AfterCut(old(bytes), CompleteLen(old(bytes)), cut) && (ok ==> bytes == Recovered(old(bytes)))
      ensures ok <==> cut == CutOk || CompleteLen(old(bytes)) == |old(bytes)|
      ensures CompleteLen(old(bytes)) == |old(bytes)| ==> bytes == old(bytes) && seen == old(seen)
    {
      var validLen := FindCompleteLen();
      assert bytes[..|bytes|] == bytes;
      ok := true;
      if validLen != |bytes| {
        ok := Truncate(validLen, cut);
      }
    }
  }

  // Runs with crashes

  /** Every content the file can have while one append is under way. */
  function Moments(s: Store, data: seq<byte>, f: Faults): set<seq<byte>> {
    var r := Repaired(s, f.repair);
    {s.bytes, r.bytes, Appended(s, data, f).0.bytes} +
    if r.rollback.None? && f.start then set j | 0 <= j <= |data| && j <= f.accepts :: r.bytes + data[..j] else {}
  }

  /** `Halt` is a process that ends between two appends, `Crash` one that ends during one, at any moment. */
  datatype Op =
    | Write(line: seq<byte>, faults: Faults)
    | Crash(line: seq<byte>, faults: Faults, left: seq<byte>)
    | Halt
    | Reopen(cut: Cut)

  /** `tried` are all lines ever submitted; a submission is known by its place there. `kept` are the
      submissions whose lines the file should hold, in order, `acked` those that were acknowledged.
      `reopened` lists how many lines were kept after each successful restart. */
  datatype History = History(store: Store, running: bool, tried: seq<seq<byte>>, kept: seq<nat>, acked: seq<nat>,
                             reopened: seq<nat>)

  const EMPTY: History := History(Store([], None), true, [], [], [], [])

  predicate Possible(h: History, op: Op) {
    match op
    case Write(line, _) => h.running && IsLine(line)
    case Crash(line, f, left) => h.running && IsLine(line) && left in Moments(h.store, line, f)
    case Halt => h.running
    case Reopen(_) => !h.running
  }

  function Flat(tried: seq<seq<byte>>, kept: seq<nat>): seq<byte> {
    if kept == [] || kept[|kept| - 1] >= |tried| then []
    else Flat(tried, kept[..|kept| - 1]) + tried[kept[|kept| - 1]]
  }

  function Good(h: History): seq<byte> {
    Flat(h.tried, h.kept)
  }

  /** The first submission after all that are kept. */
  function NextFree(kept: seq<nat>): nat {
    if kept == [] then 0 else kept[|kept| - 1] + 1
  }

  /** A submission after all kept ones that would account for what follows the kept lines. */
  ghost predicate Accounts(h: History, id: nat, bytes: seq<byte>) {
    && NextFree(h.kept) <= id < |h.tried|
    && Good(h) <= bytes && bytes[|Good(h)|..] <= h.tried[id]
  }

  /** The submission a complete extra line is put down to when the file is reopened. */
  ghost function Culprit(h: History): nat {
    if exists id: nat :: Accounts(h, id, h.store.bytes) then var id: nat :| Accounts(h, id, h.store.bytes); id else 0
  }

  ghost function Next(h: History, op: Op): History {
    match op
    case Write(line, f) =>
      var (store, ok) := Appended(h.store, line, f);
      var id := |h.tried|;
      h.(store := store, tried := h.tried + [line],
         kept := if ok then h.kept + [id] else h.kept, acked := if ok then h.acked + [id] else h.acked)
    case Crash(line, f, left) => h.(store := Store(left, None), running := false, tried := h.tried + [line])
    case Halt => h.(store := Store(h.store.bytes, None), running := false)
    case Reopen(cut) => Restarted(h, cut)
  }

  ghost function Restarted(h: History, cut: Cut): History {
    var whole := CompleteLen(h.store.bytes);
    var bytes := AfterCut(h.store.bytes, whole, cut);
    var kept := if Recovered(h.store.bytes) == Good(h) then h.kept else h.kept + [Culprit(h)];
    if cut == CutOk || whole == |h.store.bytes| then
      h.(store := Store(bytes, None), running := true, kept := kept, reopened := h.reopened + [|kept|])
    else h.(store := Store(bytes, None))
  }

  ghost function RunAll(h: History, ops: seq<Op>): History {
    if ops == [] then h else Next(RunAll(h, ops[..|ops| - 1]), ops[|ops| - 1])
  }

  ghost predicate AllPossible(h: History, ops: seq<Op>) {
    ops != [] ==> AllPossible(h, ops[..|ops| - 1]) && Possible(RunAll(h, ops[..|ops| - 1]), ops[|ops| - 1])
  }

  /** What follows the kept lines is a beginning (perhaps all) of one line that was submitted after them. */
  ghost predicate TornAfter(h: History, bytes: seq<byte>) {
    bytes == Good(h) || exists id: nat :: Accounts(h, id, bytes)
  }

  /** Submissions that are kept or acknowledged, each once and in order. */
  predicate Ordered(ids: seq<nat>, bound: nat) {
    && (forall i, j | 0 <= i < j < |ids| :: ids[i] < ids[j])
    && (forall i | 0 <= i < |ids| :: ids[i] < bound)
  }

  /** Every acknowledged submission is kept, and any other was the last line of the file at a restart. */
  predicate Accounted(h: History) {
    && Ordered(h.kept, |h.tried|) && Ordered(h.acked, |h.tried|)
    && (forall id | id in h.acked :: id in h.kept)
    && (forall i | 0 <= i < |h.kept| && h.kept[i] !in h.acked :: i + 1 in h.reopened)
    && |h.kept| <= |h.acked| + |h.reopened|
  }

  ghost predicate Sound(h: History) {
    && (forall i | 0 <= i < |h.tried| :: IsLine(h.tried[i]))
    && TornAfter(h, h.store.bytes)
    && match h.store.rollback
       case None => h.running ==> h.store.bytes == Good(h)
       case Some(n) => h.running && n == |Good(h)|
  }

  lemma {:induction false} FlatIsComplete(tried: seq<seq<byte>>, kept: seq<nat>)
    requires forall i | 0 <= i < |tried| :: IsLine(tried[i])
    ensures CompleteLen(Flat(tried, kept)) == |Flat(tried, kept)|
  {
    if kept != [] && kept[|kept| - 1] < |tried| {
      var last := tried[kept[|kept| - 1]];
      assert Flat(tried, kept)[|Flat(tried, kept)| - 1] == last[|last| - 1];
    }
  }

  lemma {:induction false} FlatMore(tried: seq<seq<byte>>, kept: seq<nat>, line: seq<byte>)
    requires Ordered(kept, |tried|)
    ensures Flat(tried + [line], kept) == Flat(tried, kept)
  {
    if kept != [] {
      FlatMore(tried, kept[..|kept| - 1], line);
    }
  }

  lemma {:induction false} FlatKeeps(tried: seq<seq<byte>>, kept: seq<nat>, id: nat)
    requires id < |tried|
    ensures Flat(tried, kept + [id]) == Flat(tried, kept) + tried[id]
  {
    assert (kept + [id])[..|kept|] == kept;
  }

  lemma {:induction false} OrderedMore(kept: seq<nat>, bound: nat, id: nat)
    requires Ordered(kept, bound) && NextFree(kept) <= id < bound
    ensures Ordered(kept + [id], bound) && id !in kept
  {
  }

  /** Submitting a line changes nothing about what is kept. */
  lemma {:induction false} Submitting(h: History, line: seq<byte>)
    requires Ordered(h.kept, |h.tried|)
    ensures var n := h.(tried := h.tried + [line]);
            && Good(n) == Good(h)
            && forall bytes | TornAfter(h, bytes) :: TornAfter(n, bytes)
  {
    FlatMore(h.tried, h.kept, line);
    var n := h.(tried := h.tried + [line]);
    forall bytes | TornAfter(h, bytes) ensures TornAfter(n, bytes) {
      if bytes != Good(h) {
        var id: nat :| Accounts(h, id, bytes);
        assert Accounts(n, id, bytes);
      }
    }
  }

  /** Any beginning of the line just submitted may follow the kept lines. */
  lemma {:induction false} PrefixIsTorn(h: History, line: seq<byte>, j: nat)
    requires h.tried != [] && h.tried[|h.tried| - 1] == line && NextFree(h.kept) <= |h.tried| - 1 && j <= |line|
    ensures TornAfter(h, Good(h) + line[..j])
  {
    hide Flat;
    assert (Good(h) + line[..j])[|Good(h)|..] == line[..j];
    assert Accounts(h, |h.tried| - 1, Good(h) + line[..j]);
  }

  lemma {:induction false} RepairSound(h: History, cut: Cut)
    requires Sound(h) && h.running
    ensures var r := Repaired(h.store, cut);
            && TornAfter(h, r.bytes)
            && (r.rollback == None ==> r.bytes == Good(h))
            && (r.rollback == None || r.rollback == Some(|Good(h)|))
  {
    hide Flat;
    if h.store.bytes != Good(h) {
      var id: nat :| Accounts(h, id, h.store.bytes);
      assert h.store.bytes[..|Good(h)|] == Good(h);
    }
  }

  /** What an append that starts from the kept lines leaves behind. */
  lemma {:induction false} AppendFromGood(good: seq<byte>, line: seq<byte>, f: Faults)
    ensures var (after, ok) := Appended(Store(good, None), line, f);
            && (ok ==> after == Store(good + line, None))
            && (!ok ==> after.bytes == good || exists j :: 0 <= j <= |line| && after.bytes == good + line[..j])
            && (!ok ==> if after.rollback == None then after.bytes == good else after.rollback == Some(|good|))
  {
    var bytes := good + Written(line, f);
    assert line[..|line|] == line;
    assert bytes[..|good|] == good;
  }

  lemma {:induction false} AppendedAfterRepair(s: Store, data: seq<byte>, f: Faults)
    ensures var r := Repaired(s, f.repair);
            Appended(s, data, f) == if r.rollback.Some? then (r, false) else Appended(r, data, f)
  {
  }

  /** An append, successful or not, leaves the kept lines and at most a beginning of one line behind them. */
  lemma {:induction false} AppendSound(h: History, line: seq<byte>, f: Faults)
    requires Sound(h) && Accounted(h) && h.running && IsLine(line)
    ensures var (store, ok) := Appended(h.store, line, f);
            var n := h.(store := store, tried := h.tried + [line]);
            && Good(n) == Good(h)
            && (ok ==> store == Store(Good(h) + line, None))
            && (!ok ==> TornAfter(n, store.bytes))
            && (!ok ==> if store.rollback == None then store.bytes == Good(h) else store.rollback == Some(|Good(h)|))
  {
    var (store, ok) := Appended(h.store, line, f);
    var n := h.(store := store, tried := h.tried + [line]);
    Submitting(h, line);
    RepairSound(h, f.repair);
    AppendFromGood(Good(h), line, f);
    AppendedAfterRepair(h.store, line, f);
    hide Appended, Repaired, Flat, Accounts;
    var r := Repaired(h.store, f.repair);
    if r.rollback == None && !ok && store.bytes != Good(h) {
      var j :| 0 <= j <= |line| && store.bytes == Good(h) + line[..j];
      PrefixIsTorn(n, line, j);
    }
  }

  lemma {:induction false} OrderedMoreTried(kept: seq<nat>, id: nat)
    requires Ordered(kept, id)
    ensures Ordered(kept, id + 1) && Ordered(kept + [id], id + 1) && id !in kept
  {
  }

  /** Submitting a line, and keeping it when it is acknowledged, keeps the accounts. */
  lemma {:induction false} AcknowledgedAccounted(h: History, line: seq<byte>, ok: bool)
    requires Accounted(h)
    ensures var id := |h.tried|;
            Accounted(h.(tried := h.tried + [line], kept := if ok then h.kept + [id] else h.kept,
                         acked := if ok then h.acked + [id] else h.acked))
  {
    hide Ordered;
    var id := |h.tried|;
    OrderedMoreTried(h.kept, id);
    OrderedMoreTried(h.acked, id);
  }

  lemma {:induction false} SameAccounts(h: History, n: History)
    requires Accounted(h) && n.tried == h.tried && n.kept == h.kept && n.acked == h.acked && n.reopened == h.reopened
    ensures Accounted(n)
  {
  }

  lemma {:induction false} WriteSound(h: History, line: seq<byte>, f: Faults)
    requires Sound(h) && Accounted(h) && Possible(h, Write(line, f))
    ensures Sound(Next(h, Write(line, f)))
  {
    AppendSound(h, line, f);
    var (store, ok) := Appended(h.store, line, f);
    var n := Next(h, Write(line, f));
    if ok {
      FlatKeeps(n.tried, h.kept, |h.tried|);
      assert n.store == Store(Good(n), None);
    } else {
      SameTorn(n, h.(store := store, tried := n.tried), store.bytes);
    }
    assert forall i | 0 <= i < |n.tried| :: IsLine(n.tried[i]);
    assert TornAfter(n, n.store.bytes);
  }

  lemma {:induction false} WriteSafe(h: History, line: seq<byte>, f: Faults)
    requires Sound(h) && Accounted(h) && Possible(h, Write(line, f))
    ensures Sound(Next(h, Write(line, f))) && Accounted(Next(h, Write(line, f)))
  {
    WriteSound(h, line, f);
    var n := Next(h, Write(line, f));
    var ok := Appended(h.store, line, f).1;
    AcknowledgedAccounted(h, line, ok);
    SameAccounts(h.(tried := n.tried, kept := n.kept, acked := n.acked), n);
  }

  /** Whatever moment of an append a crash hits. */
  lemma {:induction false} MomentsTorn(h: History, line: seq<byte>, f: Faults, left: seq<byte>)
    requires Sound(h) && Accounted(h) && Possible(h, Crash(line, f, left))
    ensures TornAfter(h.(tried := h.tried + [line]), left)
  {
    var n := h.(tried := h.tried + [line]);
    Submitting(h, line);
    RepairSound(h, f.repair);
    AppendSound(h, line, f);
    hide Flat, Accounts, Appended;
    if left == Appended(h.store, line, f).0.bytes {
      if Appended(h.store, line, f).1 {
        PrefixIsTorn(n, line, |line|);
        assert line[..|line|] == line;
      } else {
        SameTorn(n, h.(store := Appended(h.store, line, f).0, tried := h.tried + [line]), left);
      }
    } else if left != h.store.bytes && left != Repaired(h.store, f.repair).bytes {
      var j :| 0 <= j <= |line| && left == Repaired(h.store, f.repair).bytes + line[..j];
      PrefixIsTorn(n, line, j);
    }
  }

  lemma {:induction false} SameTorn(h: History, n: History, bytes: seq<byte>)
    requires n.tried == h.tried && n.kept == h.kept && TornAfter(n, bytes)
    ensures TornAfter(h, bytes)
  {
    if bytes != Good(n) {
      var id: nat :| Accounts(n, id, bytes);
      assert Accounts(h, id, bytes);
    }
  }

  /** Recovery drops a torn line and keeps a complete one, which is exactly a submitted line. */
  lemma {:induction false} TornRecovers(h: History)
    requires Sound(h)
    ensures var found := Recovered(h.store.bytes);
            && (found != Good(h) ==>
                  && Accounts(h, Culprit(h), h.store.bytes)
                  && found == h.store.bytes == Good(h) + h.tried[Culprit(h)])
            && TornAfter(h, found)
  {
    FlatIsComplete(h.tried, h.kept);
    var good := Good(h);
    hide Flat, IsLine;
    if h.store.bytes == good {
      assert good[..|good|] == good;
    } else {
      var id: nat :| Accounts(h, id, h.store.bytes);
      var line := h.tried[Culprit(h)];
      assert Accounts(h, Culprit(h), h.store.bytes);
      assert h.store.bytes == good + h.store.bytes[|good|..];
      RecoveredTail(good, h.store.bytes[|good|..], line);
    }
  }

  lemma {:induction false} ReopenSafe(h: History, cut: Cut)
    requires Sound(h) && Accounted(h) && !h.running
    ensures Sound(Restarted(h, cut)) && Accounted(Restarted(h, cut))
  {
    TornRecovers(h);
    var n := Restarted(h, cut);
    var bytes := h.store.bytes;
    hide Flat, Accounts, Culprit;
    assert CompleteLen(bytes) == |bytes| ==> Recovered(bytes) == bytes;
    if n.running {
      assert n.store.bytes == Recovered(bytes);
      if Recovered(bytes) != Good(h) {
        ExtraLine(h);
        assert n.kept == h.kept + [Culprit(h)];
      }
    } else {
      SameTorn(n, h, n.store.bytes);
    }
    ReopenAccounted(h, cut);
  }

  lemma {:induction false} ExtraLine(h: History)
    requires Accounts(h, Culprit(h), h.store.bytes)
    ensures Culprit(h) < |h.tried| && NextFree(h.kept) <= Culprit(h)
    ensures Flat(h.tried, h.kept + [Culprit(h)]) == Good(h) + h.tried[Culprit(h)]
  {
    FlatKeeps(h.tried, h.kept, Culprit(h));
  }

  lemma {:induction false} ReopenAccounted(h: History, cut: Cut)
    requires Accounted(h) && (Recovered(h.store.bytes) != Good(h) ==> Accounts(h, Culprit(h), h.store.bytes))
    ensures Accounted(Restarted(h, cut))
  {
    var n := Restarted(h, cut);
    if n.kept != h.kept {
      ExtraLine(h);
      hide Flat, Accounts, Culprit, Recovered;
      OrderedMore(h.kept, |h.tried|, Culprit(h));
    } else {
      hide Flat, Accounts, Culprit, Recovered;
    }
  }

  lemma {:induction false} StepSafe(h: History, op: Op)
    requires Sound(h) && Accounted(h) && Possible(h, op)
    ensures Sound(Next(h, op)) && Accounted(Next(h, op))
  {
    match op
    case Write(line, f) => WriteSafe(h, line, f);
    case Crash(line, f, left) =>
      MomentsTorn(h, line, f, left);
      var n := Next(h, op);
      SameTorn(n, h.(tried := h.tried + [line]), left);
      hide TornAfter, Flat;
    case Halt => SameTorn(Next(h, op), h, h.store.bytes);
    case Reopen(cut) => ReopenSafe(h, cut);
  }

  /** Over every run of appends with any failures, of crashes in the middle of an append and of failed
      or successful restarts: the file holds exactly the kept submissions, each once and in order; those
      are all that were acknowledged, and else only lines that were submitted and stood last, complete,
      when the file was reopened, one at most for each time. Behind them there is nothing while no
      rollback is outstanding, else a beginning of one line that was submitted after them. */
  lemma {:induction false} CrashSafety(ops: seq<Op>)
    requires AllPossible(EMPTY, ops)
    ensures Sound(RunAll(EMPTY, ops)) && Accounted(RunAll(EMPTY, ops))
  {
    if ops != [] {
      CrashSafety(ops[..|ops| - 1]);
      StepSafe(RunAll(EMPTY, ops[..|ops| - 1]), ops[|ops| - 1]);
    }
  }

  /** No append succeeds while a rollback is outstanding: the torn bytes are cut off first. */
  lemma {:induction false} NoAppendWhileRollingBack(s: Store, data: seq<byte>, f: Faults)
    requires s.rollback.Some? && s.rollback.value <= |s.bytes|
    ensures Appended(s, data, f).1 ==>
            f.repair == CutOk && Appended(s, data, f).0 == Store(s.bytes[..s.rollback.value] + data, None)
  {
  }
}
