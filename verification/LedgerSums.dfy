/** Sums over parts of the ledger, and how they behave when entries are added, filtered or relabelled. */
module LedgerSums {
  import opened UsageStats
  import opened UsageLedger

  function SumWhere(es: seq<Entry>, p: Entry -> bool): Stats {
    if es == [] then Zero()
    else
      var rest := SumWhere(es[..|es| - 1], p);
      if p(es[|es| - 1]) then Plus(rest, es[|es| - 1].stats) else rest
  }

  function OfAgent(a: Agent): Entry -> bool {
    (e: Entry) => e.Agent() == a
  }

  lemma {:induction false} SumAppend(es: seq<Entry>, e: Entry, p: Entry -> bool)
    ensures SumWhere(es + [e], p) == if p(e) then Plus(SumWhere(es, p), e.stats) else SumWhere(es, p)
  {
    assert (es + [e])[..|es|] == es;
  }

  lemma {:induction false} SumSame(es: seq<Entry>, p: Entry -> bool, q: Entry -> bool)
    requires forall e | e in es :: p(e) == q(e)
    ensures SumWhere(es, p) == SumWhere(es, q)
  {
    if es != [] {
      SumSame(es[..|es| - 1], p, q);
      assert es[|es| - 1] in es;
    }
  }

  lemma {:induction false} SumSplit(es: seq<Entry>, p: Entry -> bool, q: Entry -> bool, r: Entry -> bool)
    requires forall e {:trigger e in es} | e in es :: (p(e) <==> q(e) || r(e)) && !(q(e) && r(e))
    ensures SumWhere(es, p) == Plus(SumWhere(es, q), SumWhere(es, r))
  {
    if es != [] {
      var rest, last := es[..|es| - 1], es[|es| - 1];
      forall e {:trigger e in rest} | e in rest ensures (p(e) <==> q(e) || r(e)) && !(q(e) && r(e)) {
        assert e in es;
      }
      SumSplit(rest, p, q, r);
      assert last in es;
    }
  }

  lemma {:induction false} SumAtMost(es: seq<Entry>, p: Entry -> bool, q: Entry -> bool)
    requires forall e | e in es :: p(e) ==> q(e)
    ensures SumWhere(es, p).AtMost(SumWhere(es, q))
  {
    if es != [] {
      SumAtMost(es[..|es| - 1], p, q);
      assert es[|es| - 1] in es;
    }
  }

  lemma {:induction false} SumRelabel(es: seq<Entry>, f: Entry -> Entry, p: Entry -> bool, q: Entry -> bool)
    requires forall e | e in es :: f(e).stats == e.stats && p(f(e)) == q(e)
    ensures SumWhere(Relabel(es, f), p) == SumWhere(es, q)
  {
    if es != [] {
      var n := |es| - 1;
      assert Relabel(es, f)[..n] == Relabel(es[..n], f);
      SumRelabel(es[..n], f, p, q);
      assert es[n] in es;
    }
  }

  lemma {:induction false} SumFilter(es: seq<Entry>, keep: Entry -> bool, p: Entry -> bool, q: Entry -> bool)
    requires forall e | e in es :: q(e) == (keep(e) && p(e))
    ensures SumWhere(Filter(es, keep), p) == SumWhere(es, q)
  {
    if es != [] {
      var n := |es| - 1;
      SumFilter(es[..n], keep, p, q);
      assert es[n] in es;
      if keep(es[n]) {
        SumAppend(Filter(es[..n], keep), es[n], p);
      }
    }
  }

  /** A sum is zero exactly when nothing with a value is summed. */
  lemma {:induction false} SumHasValue(es: seq<Entry>, p: Entry -> bool)
    requires forall e | e in es :: e.stats.HasAnyValue()
    ensures SumWhere(es, p).HasAnyValue() <==> exists e :: e in es && p(e)
    ensures !SumWhere(es, p).HasAnyValue() ==> SumWhere(es, p) == Zero()
  {
    if es != [] {
      var n := |es| - 1;
      SumHasValue(es[..n], p);
      assert es == es[..n] + [es[n]];
      if exists e :: e in es[..n] && p(e) {
        var e :| e in es[..n] && p(e);
        assert e in es;
      }
    }
  }

  // Filters

  lemma {:induction false} FilterAppend(es: seq<Entry>, e: Entry, p: Entry -> bool)
    ensures Filter(es + [e], p) == if p(e) then Filter(es, p) + [e] else Filter(es, p)
  {
    assert (es + [e])[..|es|] == es;
  }

  lemma {:induction false} RelabelAppend(es: seq<Entry>, e: Entry, f: Entry -> Entry)
    ensures Relabel(es + [e], f) == Relabel(es, f) + [f(e)]
  {
  }

  lemma {:induction false} FilterRelabel(es: seq<Entry>, f: Entry -> Entry, p: Entry -> bool)
    requires forall e | e in es :: p(f(e)) == p(e)
    ensures Filter(Relabel(es, f), p) == Relabel(Filter(es, p), f)
  {
    if es != [] {
      var n := |es| - 1;
      var front, last := es[..n], es[n];
      assert es == front + [last];
      FilterRelabel(front, f, p);
      FilterAppend(front, last, p);
      FilterAppend(Relabel(front, f), f(last), p);
      RelabelAppend(front, last, f);
      RelabelAppend(Filter(front, p), last, f);
      assert last in es && p(f(last)) == p(last);
      hide Filter, Relabel;
    }
  }

  lemma {:induction false} FilterFilter(es: seq<Entry>, keep: Entry -> bool, p: Entry -> bool)
    requires forall e | e in es :: p(e) ==> keep(e)
    ensures Filter(Filter(es, keep), p) == Filter(es, p)
  {
    if es != [] {
      var n := |es| - 1;
      FilterFilter(es[..n], keep, p);
      assert es[n] in es;
      if keep(es[n]) {
        FilterAppend(Filter(es[..n], keep), es[n], p);
      }
    }
  }

  lemma {:induction false} FilterSame(es: seq<Entry>, f: Entry -> Entry, p: Entry -> bool)
    requires forall e | e in es :: p(f(e)) == p(e) && (p(e) ==> f(e) == e)
    ensures Filter(Relabel(es, f), p) == Filter(es, p)
  {
    FilterRelabel(es, f, p);
  }
}
