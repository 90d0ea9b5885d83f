/** The latency outlier detector (`services/telemetry-ingester/anomaly/ml_detector.go`): a running mean and
    variance per contestant by Welford's update, over exact reals. */
module Anomaly {
  import opened Reals

  datatype Welford = Welford(count: nat, mean: real, m2: real)

  const FRESH := Welford(0, 0.0, 0.0)
  const WARM_UP := 100

  function Absorb(w: Welford, value: real): Welford {
    var count := w.count + 1;
    var delta := value - w.mean;
    var mean := w.mean + delta / count as real;
    Welford(count, mean, w.m2 + delta * (value - mean))
  }

  // ----- the batch definitions -----

  function Mean(xs: seq<real>): real
    requires xs != []
  {
    Sum(xs) / |xs| as real
  }

  /** The sum of the squared deviations from a centre. */
  function Spread(xs: seq<real>, centre: real): real {
    if xs == [] then 0.0 else Spread(xs[..|xs| - 1], centre) + Square(xs[|xs| - 1] - centre)
  }

  function Batch(xs: seq<real>): Welford {
    if xs == [] then FRESH else Welford(|xs|, Mean(xs), Spread(xs, Mean(xs)))
  }

  /** The sum of the deviations from a centre; from the mean it is zero. */
  function Drift(xs: seq<real>, centre: real): real {
    if xs == [] then 0.0 else Drift(xs[..|xs| - 1], centre) + (xs[|xs| - 1] - centre)
  }

  lemma {:induction false} DriftIs(xs: seq<real>, centre: real)
    ensures Drift(xs, centre) == Offset(Sum(xs), |xs| as real, centre)
  {
    if xs == [] {
    } else {
      var front, x := xs[..|xs| - 1], xs[|xs| - 1];
      DriftIs(front, centre);
      assert xs == front + [x];
      SumSnoc(front, x);
      OffsetNext(Sum(front), |front| as real, centre, x);
    }
  }

  function Offset(sum: real, n: real, centre: real): real {
    sum - n * centre
  }

  lemma OffsetNext(sum: real, n: real, centre: real, x: real)
    ensures Offset(sum + x, n + 1.0, centre) == Offset(sum, n, centre) + (x - centre)
  {
    OneMore(n, centre);
  }

  /** The spread about a centre d further on, from the spread, the drift and the number of samples. */
  function Shifted(spread: real, drift: real, n: real, d: real): real {
    spread - 2.0 * d * drift + n * Square(d)
  }

  lemma ShiftedNext(spread: real, drift: real, n: real, d: real, y: real)
    ensures Shifted(spread + Square(y), drift + y, n + 1.0, d) == Shifted(spread, drift, n, d) + Square(y - d)
  {
    assert 2.0 * d * (drift + y) == 2.0 * d * drift + 2.0 * d * y;
    assert (n + 1.0) * Square(d) == n * Square(d) + Square(d);
    assert Square(y - d) == Square(y) - 2.0 * d * y + Square(d);
  }

  lemma {:induction false} SpreadShift(xs: seq<real>, m: real, k: real)
    ensures Spread(xs, k) == Shifted(Spread(xs, m), Drift(xs, m), |xs| as real, k - m)
  {
    if xs == [] {
    } else {
      var front, x := xs[..|xs| - 1], xs[|xs| - 1];
      SpreadShift(front, m, k);
      ShiftedNext(Spread(front, m), Drift(front, m), |front| as real, k - m, x - m);
      assert x - k == (x - m) - (k - m);
    }
  }

  lemma NoDrift(xs: seq<real>)
    requires xs != []
    ensures Drift(xs, Mean(xs)) == 0.0
  {
    DriftIs(xs, Mean(xs));
    Quotient(Sum(xs), |xs| as real);
  }

  lemma SpreadAboutMean(xs: seq<real>, k: real)
    requires xs != []
    ensures Spread(xs, k) == Shifted(Spread(xs, Mean(xs)), 0.0, |xs| as real, k - Mean(xs))
  {
    SpreadShift(xs, Mean(xs), k);
    NoDrift(xs);
  }

  lemma MeanNext(xs: seq<real>, v: real)
    requires xs != []
    ensures Mean(xs + [v]) == Mean(xs) + (v - Mean(xs)) / (|xs| as real + 1.0)
  {
    SumSnoc(xs, v);
    Quotient(Sum(xs), |xs| as real);
    NewMean(|xs| as real, Mean(xs), Sum(xs), v);
  }

  /** One step of the update is one more sample of the batch. */
  lemma AbsorbIsBatch(xs: seq<real>, v: real)
    ensures Absorb(Batch(xs), v) == Batch(xs + [v])
  {
    if xs == [] {
      assert xs + [v] == [v];
      AbsorbFirst(v);
    } else {
      MeanNext(xs, v);
      SpreadNext(xs, v, Mean(xs), Mean(xs + [v]));
    }
  }

  lemma SpreadNext(xs: seq<real>, v: real, m: real, k: real)
    requires xs != [] && m == Mean(xs) && k == m + (v - m) / (|xs| as real + 1.0)
    ensures Spread(xs + [v], k) == Spread(xs, m) + (v - m) * (v - k)
  {
    assert (xs + [v])[..|xs|] == xs;
    SpreadAboutMean(xs, k);
    NewSpread(Spread(xs, m), |xs| as real, m, v, k);
  }

  lemma AbsorbFirst(v: real)
    ensures Absorb(FRESH, v) == Batch([v])
  {
    assert [v][..0] == [] == [v][1..];
    assert Sum([v]) == v && |[v]| as real == 1.0;
    assert Mean([v]) == v;
    assert Spread([v], v) == 0.0;
    assert Absorb(FRESH, v) == Welford(1, v, v * (v - v));
  }

  lemma NewMean(n: real, m: real, sum: real, v: real)
    requires n > 0.0 && sum == n * m
    ensures m + (v - m) / (n + 1.0) == (sum + v) / (n + 1.0)
  {
    OneMore(n, m);
    Quotient(v - m, n + 1.0);
    Quotient(sum + v, n + 1.0);
    SameFactor(n + 1.0, m + (v - m) / (n + 1.0), (sum + v) / (n + 1.0));
  }

  lemma NewSpread(spread: real, n: real, m: real, v: real, k: real)
    requires n > 0.0 && k == m + (v - m) / (n + 1.0)
    ensures Shifted(spread, 0.0, n, k - m) + Square(v - k) == spread + (v - m) * (v - k)
  {
    var e := k - m;
    Quotient(v - m, n + 1.0);
    OneMore(n, e);
    assert v - m == n * e + e && v - k == n * e;
    SquareStep(n, e);
  }

  lemma SquareStep(n: real, e: real)
    ensures n * Square(e) + Square(n * e) == (n * e + e) * (n * e)
  {
    assert n * (e * e) == (n * e) * e;
  }

  /** Welford's update over any observations gives their mean and their sum of squared deviations. */
  lemma {:induction false} WelfordIsBatch(xs: seq<real>)
    ensures Fold(xs) == Batch(xs)
  {
    if xs == [] {
    } else {
      var front, x := xs[..|xs| - 1], xs[|xs| - 1];
      WelfordIsBatch(front);
      AbsorbIsBatch(front, x);
      assert front + [x] == xs;
    }
  }

  function Fold(xs: seq<real>): Welford {
    if xs == [] then FRESH else Absorb(Fold(xs[..|xs| - 1]), xs[|xs| - 1])
  }

  // ----- the decision -----

  /** A z-score: a deviation over the square root of a variance, or zero when that is not defined. */
  datatype Score = Zero | Ratio(deviation: real, variance: real)

  function ScoreOf(w: Welford, value: real): Score {
    if w.count < 2 then Zero
    else
      var variance := w.m2 / (w.count - 1) as real;
      if variance == 0.0 then Zero else Ratio(value - w.mean, variance)
  }

  /** Whether a score is beyond the threshold, without the square root. */
  predicate Exceeds(z: Score, threshold: real) {
    match z
    case Zero => 0.0 > threshold
    case Ratio(d, variance) => threshold < 0.0 || Square(d) > Square(threshold) * variance
  }

  /** The squared comparison decides as the original one does, whichever way the root is computed. */
  lemma SquaredTest(d: real, variance: real, root: real, threshold: real)
    requires root > 0.0 && Square(root) == variance
    ensures Abs(d / root) > threshold <==> Exceeds(Ratio(d, variance), threshold)
  {
    var z := d / root;
    Quotient(d, root);
    assert d == root * z;
    SquareOfProduct(root, z);
    if threshold >= 0.0 {
      SquareOrder(root, 0.0);
      SquareOrder(Abs(z), threshold);
      ScaleOrder(variance, Square(z), Square(threshold));
    }
  }

  /** The score as the source computes it, for whatever root of the sample variance. */
  function Quotients(d: real, n: nat, root: real): real {
    if n < 2 || root == 0.0 then 0.0 else d / root
  }

  /** The decision in numbers: a value is beyond the threshold exactly when its deviation from the mean of everything
      seen, over the root of the variance with n - 1, is; with one sample or no variance the score is zero. */
  lemma DecisionIs(xs: seq<real>, v: real, root: real, threshold: real)
    requires xs != [] && root >= 0.0 && Square(root) * (|xs| - 1) as real == Spread(xs, Mean(xs))
    ensures Exceeds(ScoreOf(Batch(xs), v), threshold) <==> Abs(Quotients(v - Mean(xs), |xs|, root)) > threshold
  {
    if |xs| >= 2 {
      var n := (|xs| - 1) as real;
      Quotient(Spread(xs, Mean(xs)), n);
      SameFactor(n, Spread(xs, Mean(xs)) / n, Square(root));
      if root > 0.0 {
        SquareOrder(root, 0.0);
        SquaredTest(v - Mean(xs), Square(root), root, threshold);
      }
    }
  }

  lemma {:induction false} SpreadNonNegative(xs: seq<real>, centre: real)
    ensures Spread(xs, centre) >= 0.0
  {
    if xs == [] {
    } else {
      SquareNonNegative(xs[|xs| - 1] - centre);
      SpreadNonNegative(xs[..|xs| - 1], centre);
    }
  }

  /** Because a value is absorbed before it is scored, its own score is bounded by the number of samples. */
  lemma ScoreBounded(xs: seq<real>, v: real)
    requires xs != []
    ensures Within(ScoreOf(Batch(xs + [v]), v), |xs| + 1)
  {
    SpreadNonNegative(xs, Mean(xs));
    AbsorbIsBatch(xs, v);
    BoundedAs(Batch(xs), v, Batch(xs + [v]));
  }

  lemma BoundedAs(w: Welford, v: real, w': Welford)
    requires w.count >= 1 && w.m2 >= 0.0 && w' == Absorb(w, v)
    ensures Within(ScoreOf(w', v), w.count + 1)
  {
    AbsorbedBounded(w, v);
  }

  /** z squared is at most (n - 1) squared over n. */
  predicate Within(z: Score, n: nat) {
    z.Ratio? ==> Square(z.deviation) * n as real <= z.variance * Square(n as real - 1.0)
  }

  lemma AbsorbedBounded(w: Welford, v: real)
    requires w.count >= 1 && w.m2 >= 0.0
    ensures Within(ScoreOf(Absorb(w, v), v), w.count + 1)
  {
    var n := w.count as real;
    Bounded(w.m2, n, w.mean, v, w.mean + (v - w.mean) / (n + 1.0));
  }

  lemma Bounded(spread: real, n: real, m: real, v: real, k: real)
    requires n > 0.0 && spread >= 0.0 && k == m + (v - m) / (n + 1.0)
    ensures Square(v - k) * (n + 1.0) <= (spread + (v - m) * (v - k)) / n * Square(n)
  {
    var e := k - m;
    Quotient(v - m, n + 1.0);
    OneMore(n, e);
    assert v - m == n * e + e && v - k == n * e;
    var m2 := spread + (v - m) * (v - k);
    Quotient(m2, n);
    assert m2 / n * (n * n) == (n * (m2 / n)) * n;
    assert Square(n * e) * (n + 1.0) == n * ((n * e + e) * (n * e));
    Monotone(n, (n * e + e) * (n * e), m2);
  }

  class ZScoreDetector {
    var state: map<string, Welford>
    ghost var seen: map<string, seq<real>>  // what was absorbed for each contestant

    ghost function Seen(id: string): seq<real>
      reads this
    {
      if id in seen then seen[id] else []
    }

    ghost predicate Tracks(id: string)
      reads this
    {
      (if id in state then state[id] else FRESH) == Batch(Seen(id))
    }

    ghost predicate Valid()
      reads this
    {
      forall id {:trigger Tracks(id)} :: Tracks(id)
    }

    constructor ()
      ensures Valid() && seen == map[]
    {
      state, seen := map[], map[];
    }

    /** Absorbs the value, for this contestant alone, and scores it. */
    method Observe(contestantID: string, value: real) returns (z: Score)
      requires Valid()
      modifies this
      ensures Valid() && seen == old(seen)[contestantID := old(Seen(contestantID)) + [value]]
      ensures z == ScoreOf(Batch(Seen(contestantID)), value)
    {
      var w := FRESH;
      if contestantID in state {
        w := state[contestantID];
      }
      assert Tracks(contestantID);
      AbsorbIsBatch(Seen(contestantID), value);
      w := Absorb(w, value);
      state := state[contestantID := w];
      seen := seen[contestantID := Seen(contestantID) + [value]];
      forall id ensures Tracks(id) { assert old(Tracks(id)); }
      z := ScoreOf(w, value);
    }

    /** The first locked section of IsAnomaly. */
    method IsWarm(contestantID: string) returns (warm: bool)
      requires Valid()
      ensures warm <==> |Seen(contestantID)| > 100
    {
      assert Tracks(contestantID);
      warm := contestantID in state && state[contestantID].count > WARM_UP;
    }

    /** The rest of IsAnomaly, on either path. The lock is taken anew, so other calls may have absorbed values
        since `warm` was read; whatever they did, this call absorbs its value once, and flags it by the
        statistics it then finds. */
    method Judge(contestantID: string, value: real, threshold: real, warm: bool) returns (flagged: bool)
      requires Valid()
      modifies this
      ensures Valid() && seen == old(seen)[contestantID := old(Seen(contestantID)) + [value]]
      ensures flagged <==> warm && Exceeds(ScoreOf(Batch(Seen(contestantID)), value), threshold)
    {
      if !warm {
        var _ := Observe(contestantID, value);
        return false;
      }
      var z := Observe(contestantID, value);
      return Exceeds(z, threshold);
    }

    /** With nothing in between: only a baseline that is warm already can flag a value. */
    method IsAnomaly(contestantID: string, value: real, threshold: real) returns (flagged: bool)
      requires Valid()
      modifies this
      ensures Valid() && seen == old(seen)[contestantID := old(Seen(contestantID)) + [value]]
      ensures flagged <==> |old(Seen(contestantID))| > 100 &&
                           Exceeds(ScoreOf(Batch(Seen(contestantID)), value), threshold)
    {
      var warm := IsWarm(contestantID);
      flagged := Judge(contestantID, value, threshold, warm);
    }
  }
}
