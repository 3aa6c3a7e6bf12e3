/** The running statistics of ParticleDualVectorFunction, described by the list
    of what each Evaluate call since the last BeforeIteration added to them. */
module Statistics {

  /** The six accumulators: m_AverageGradMagA/B/C and m_AverageEnergyA/B/C. */
  datatype Stat = GradMagA | GradMagB | GradMagC | EnergyA | EnergyB | EnergyC

  /** One value per accumulator: what one Evaluate call added to each (0.0
      where it added nothing), or the six sums themselves. */
  datatype Contribution = Contribution(gradMagA: real, gradMagB: real, gradMagC: real,
                                       energyA: real, energyB: real, energyC: real)
  {
    function Get(k: Stat): real {
      match k
      case GradMagA => gradMagA
      case GradMagB => gradMagB
      case GradMagC => gradMagC
      case EnergyA => energyA
      case EnergyB => energyB
      case EnergyC => energyC
    }

    /** Accumulator-wise sum. */
    function Plus(x: Contribution): Contribution {
      Contribution(gradMagA + x.gradMagA, gradMagB + x.gradMagB, gradMagC + x.gradMagC,
                   energyA + x.energyA, energyB + x.energyB, energyC + x.energyC)
    }

    /** The three gradient magnitudes are not negative. */
    predicate MagnitudesNonNegative() {
      gradMagA >= 0.0 && gradMagB >= 0.0 && gradMagC >= 0.0
    }
  }

  /** Plus adds accumulator by accumulator. */
  lemma PlusGet(x: Contribution, y: Contribution)
    ensures forall k :: x.Plus(y).Get(k) == x.Get(k) + y.Get(k)
  {
  }

  const NoContribution := Contribution(0.0, 0.0, 0.0, 0.0, 0.0, 0.0)

  /** The six sums over the recorded calls, added up from the last call
      backwards, as Evaluate appends. */
  function Sum(s: seq<Contribution>): Contribution
    decreases |s|
  {
    if s == [] then NoContribution else Sum(s[..|s| - 1]).Plus(s[|s| - 1])
  }

  /** The sum of accumulator k over the recorded calls. */
  function Total(s: seq<Contribution>, k: Stat): real {
    Sum(s).Get(k)
  }

  /** The mean of accumulator k per recorded call, 0.0 when nothing is recorded. */
  function Mean(s: seq<Contribution>, k: Stat): real {
    if s == [] then 0.0 else Total(s, k) / (|s| as real)
  }

  /** The counter and the sums agree with the record s: the counter is the
      number of recorded calls, the sums are their sums, and no recorded
      gradient magnitude is negative. */
  ghost predicate Records(counter: real, sums: Contribution, s: seq<Contribution>) {
    && counter == |s| as real
    && sums == Sum(s)
    && forall i | 0 <= i < |s| :: s[i].MagnitudesNonNegative()
  }

  /** Adding one call's contribution to the counter and the sums keeps them in
      step with the record extended by that call. */
  lemma RecordsAppend(counter: real, sums: Contribution, s: seq<Contribution>, x: Contribution)
    requires Records(counter, sums, s)
    requires x.MagnitudesNonNegative()
    ensures Records(counter + 1.0, sums.Plus(x), s + [x])
  {
  }

  /** Every recorded value is at least lo, so the total is at least |s| * lo. */
  lemma {:induction false} TotalAtLeast(s: seq<Contribution>, k: Stat, lo: real)
    requires forall i | 0 <= i < |s| :: lo <= s[i].Get(k)
    ensures (|s| as real) * lo <= Total(s, k)
    decreases |s|
  {
    if s != [] {
      var init := s[..|s| - 1];
      TotalAtLeast(init, k, lo);
      PlusGet(Sum(init), s[|s| - 1]);
      assert (|s| as real) * lo == (|init| as real) * lo + lo;
    }
  }

  /** Every recorded value is at most hi, so the total is at most |s| * hi. */
  lemma {:induction false} TotalAtMost(s: seq<Contribution>, k: Stat, hi: real)
    requires forall i | 0 <= i < |s| :: s[i].Get(k) <= hi
    ensures Total(s, k) <= (|s| as real) * hi
    decreases |s|
  {
    if s != [] {
      var init := s[..|s| - 1];
      TotalAtMost(init, k, hi);
      PlusGet(Sum(init), s[|s| - 1]);
      assert (|s| as real) * hi == (|init| as real) * hi + hi;
    }
  }

  /** A mean is no smaller than a lower bound of what was recorded (the empty
      mean, 0.0, needs lo <= 0.0). */
  lemma {:induction false} MeanAtLeast(s: seq<Contribution>, k: Stat, lo: real)
    requires s != [] || lo <= 0.0
    requires forall i | 0 <= i < |s| :: lo <= s[i].Get(k)
    ensures lo <= Mean(s, k)
  {
    if s != [] {
      TotalAtLeast(s, k, lo);
      var n := |s| as real;
      assert Mean(s, k) - lo == (Total(s, k) - n * lo) / n;
    }
  }

  /** A mean is no larger than an upper bound of what was recorded (the empty
      mean, 0.0, needs hi >= 0.0). */
  lemma {:induction false} MeanAtMost(s: seq<Contribution>, k: Stat, hi: real)
    requires s != [] || 0.0 <= hi
    requires forall i | 0 <= i < |s| :: s[i].Get(k) <= hi
    ensures Mean(s, k) <= hi
  {
    if s != [] {
      TotalAtMost(s, k, hi);
      var n := |s| as real;
      assert hi - Mean(s, k) == (n * hi - Total(s, k)) / n;
    }
  }

  /** When every recorded call added the same m, the mean is exactly m. */
  lemma {:induction false} MeanOfConstant(s: seq<Contribution>, k: Stat, m: real)
    requires s != []
    requires forall i | 0 <= i < |s| :: s[i].Get(k) == m
    ensures Mean(s, k) == m
  {
    MeanAtLeast(s, k, m);
    MeanAtMost(s, k, m);
  }
}
