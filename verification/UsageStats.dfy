/** The counters of one usage bucket (`ModelStats`). Seven of them are unsigned 64-bit
    integers that saturate; the cost is an exact natural number of some fixed unit. */
module UsageStats {

  const U64_MAX: nat := 0xFFFF_FFFF_FFFF_FFFF

  datatype Stats = Stats(
    requests: nat,
    input: nat,
    output: nat,
    cacheRead: nat,
    cacheCreation: nat,
    reasoning: nat,
    cost: nat,
    duration: nat)
  {
    predicate HasUsage() {
      input != 0 || output != 0 || cacheRead != 0 || cacheCreation != 0 || reasoning != 0 || cost != 0
    }

    predicate HasAnyValue() {
      HasUsage() || requests != 0 || duration != 0
    }

    /** No counter exceeds what 64 bits hold. */
    predicate Fits() {
      && requests <= U64_MAX && input <= U64_MAX && output <= U64_MAX && cacheRead <= U64_MAX
      && cacheCreation <= U64_MAX && reasoning <= U64_MAX && duration <= U64_MAX
    }

    predicate AtMost(other: Stats) {
      && requests <= other.requests && input <= other.input && output <= other.output
      && cacheRead <= other.cacheRead && cacheCreation <= other.cacheCreation
      && reasoning <= other.reasoning && cost <= other.cost && duration <= other.duration
    }
  }

  function Zero(): Stats {
    Stats(0, 0, 0, 0, 0, 0, 0, 0)
  }

  /** Exact addition, used only to say what the counters should hold. */
  function Plus(a: Stats, b: Stats): Stats {
    Stats(a.requests + b.requests, a.input + b.input, a.output + b.output, a.cacheRead + b.cacheRead,
          a.cacheCreation + b.cacheCreation, a.reasoning + b.reasoning, a.cost + b.cost, a.duration + b.duration)
  }

  lemma {:induction false} PlusLaws(a: Stats, b: Stats, c: Stats)
    ensures Plus(Plus(a, b), c) == Plus(a, Plus(b, c)) == Plus(Plus(a, c), b)
    ensures Plus(a, Zero()) == a
  {
  }

  lemma {:induction false} PlusZero(a: Stats)
    ensures Plus(Zero(), a) == a
  {
  }

  function AddSaturating(a: nat, b: nat): nat {
    if a + b <= U64_MAX then a + b else U64_MAX
  }

  function SubSaturating(a: nat, b: nat): nat {
    if b <= a then a - b else 0
  }

  function Add(a: Stats, b: Stats): (r: Stats)
    ensures Plus(a, b).Fits() ==> r == Plus(a, b)
  {
    Stats(AddSaturating(a.requests, b.requests), AddSaturating(a.input, b.input),
          AddSaturating(a.output, b.output), AddSaturating(a.cacheRead, b.cacheRead),
          AddSaturating(a.cacheCreation, b.cacheCreation), AddSaturating(a.reasoning, b.reasoning),
          a.cost + b.cost, AddSaturating(a.duration, b.duration))
  }

  function Subtract(a: Stats, b: Stats): (r: Stats)
    ensures b.AtMost(a) <==> Plus(r, b) == a
  {
    Stats(SubSaturating(a.requests, b.requests), SubSaturating(a.input, b.input),
          SubSaturating(a.output, b.output), SubSaturating(a.cacheRead, b.cacheRead),
          SubSaturating(a.cacheCreation, b.cacheCreation), SubSaturating(a.reasoning, b.reasoning),
          SubSaturating(a.cost, b.cost), SubSaturating(a.duration, b.duration))
  }

  /** The sum, or all that 64 bits hold. */
  predicate Capped(r: nat, a: nat, b: nat) {
    if a + b > 18_446_744_073_709_551_615 then r == 18_446_744_073_709_551_615 else r == a + b
  }

  /** What is left when `b` is taken away, or nothing. */
  predicate CutAtZero(r: nat, a: nat, b: nat) {
    (r == 0 && a <= b) || r + b == a
  }

  /** Each counter by itself, whether or not it fits. */
  lemma {:induction false} CountersSaturate(a: Stats, b: Stats)
    ensures var r := Add(a, b);
            && Capped(r.requests, a.requests, b.requests) && Capped(r.input, a.input, b.input)
            && Capped(r.output, a.output, b.output) && Capped(r.cacheRead, a.cacheRead, b.cacheRead)
            && Capped(r.cacheCreation, a.cacheCreation, b.cacheCreation)
            && Capped(r.reasoning, a.reasoning, b.reasoning) && Capped(r.duration, a.duration, b.duration)
            && r.cost == a.cost + b.cost
    ensures var r := Subtract(a, b);
            && CutAtZero(r.requests, a.requests, b.requests) && CutAtZero(r.input, a.input, b.input)
            && CutAtZero(r.output, a.output, b.output) && CutAtZero(r.cacheRead, a.cacheRead, b.cacheRead)
            && CutAtZero(r.cacheCreation, a.cacheCreation, b.cacheCreation)
            && CutAtZero(r.reasoning, a.reasoning, b.reasoning) && CutAtZero(r.duration, a.duration, b.duration)
            && CutAtZero(r.cost, a.cost, b.cost)
  {
  }

  /** Saturating addition is exact exactly when the sum fits. */
  lemma {:induction false} ExactIffFits(a: Stats, b: Stats)
    ensures Add(a, b) == Plus(a, b) <==> Plus(a, b).Fits()
  {
  }
}
