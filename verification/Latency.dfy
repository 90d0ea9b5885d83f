/** The counting histogram (`services/telemetry-ingester/latency/hdr_histogram.go`): one counter per
    microsecond, so recording is one increment and a percentile one scan. It is proved to return what
    sorting the samples and indexing would. */
module Latency {
  import StableSort
  import opened Reals

  const MAX_BUCKET := 10_000_000  // 10 s in microseconds

  /** What is recorded for a latency: out-of-range values count at the ends. */
  function Bucket(latencyUs: int): int {
    if latencyUs < 0 then 0 else if latencyUs >= MAX_BUCKET then MAX_BUCKET - 1 else latencyUs
  }

  function IntLess(): (int, int) -> bool {
    (a: int, b: int) => a < b
  }

  lemma IntLessOrders()
    ensures StableSort.Ordering(IntLess())
  {
    forall x, y, z ensures StableSort.Between(IntLess(), x, y, z) { }
  }

  function Sorted(samples: seq<int>): seq<int> {
    StableSort.Sort(samples, IntLess())
  }

  function Scale(n: int, pct: real): real {
    n as real * pct
  }

  /** The 1-based rank a percentile asks for among n samples. */
  function RankOf(n: nat, pct: real): int {
    var target := Truncate(Scale(n, pct));
    if target < 1 then 1 else if target > n then n else target
  }

  /** The naive definition: sort the samples and take the one of the rank. */
  function PercentileOf(samples: seq<int>, pct: real): int {
    if samples == [] then 0 else Sorted(samples)[RankOf(|samples|, pct) - 1]
  }

  /** The samples below v. */
  function Below(samples: seq<int>, v: int): nat {
    if samples == [] then 0 else Below(samples[..|samples| - 1], v) + if samples[|samples| - 1] < v then 1 else 0
  }

  function SumOf(samples: seq<int>): int {
    if samples == [] then 0 else SumOf(samples[..|samples| - 1]) + samples[|samples| - 1]
  }

  function MaxOf(samples: seq<int>): int {
    if samples == [] then 0
    else
      var m, x := MaxOf(samples[..|samples| - 1]), samples[|samples| - 1];
      if x > m then x else m
  }

  lemma Snoc(s: seq<int>, x: int)
    ensures (s + [x])[..|s|] == s
    ensures multiset(s + [x]) == multiset(s)[x := multiset(s)[x] + 1]
  {
  }

  /** One more bucket adds the samples of that value. */
  lemma {:induction false} BelowNext(samples: seq<int>, v: int)
    ensures Below(samples, v + 1) == Below(samples, v) + multiset(samples)[v]
  {
    if samples == [] {
    } else {
      var front, x := samples[..|samples| - 1], samples[|samples| - 1];
      assert samples == front + [x];
      BelowNext(front, v);
    }
  }

  lemma {:induction false} BelowEnds(samples: seq<int>, lo: int, hi: int)
    requires forall i :: 0 <= i < |samples| ==> lo <= samples[i] < hi
    ensures Below(samples, lo) == 0 && Below(samples, hi) == |samples|
  {
    if samples == [] {
    } else {
      BelowEnds(samples[..|samples| - 1], lo, hi);
    }
  }

  /** In a sorted sequence the element of rank k is the value with fewer than k samples below it and at
      least k up to it. */
  lemma {:induction false} RankInSorted(s: seq<int>, k: int, v: int)
    requires StableSort.Sorted(s, IntLess()) && 1 <= k <= |s|
    requires Below(s, v) < k <= Below(s, v + 1)
    ensures s[k - 1] == v
  {
    var front, x := s[..|s| - 1], s[|s| - 1];
    if k < |s| {
      if x <= v {
        AllBelow(s, v + 1);
        AllBelow(front, v + 1);
      }
      BelowAtMost(front, v);
      RankInSorted(front, k, v);
    } else {
      BelowAtMost(front, v);
      BelowAtMost(front, v + 1);
    }
  }

  lemma {:induction false} BelowAtMost(s: seq<int>, v: int)
    ensures Below(s, v) <= |s|
    ensures Below(s, v) == |s| <==> forall i :: 0 <= i < |s| ==> s[i] < v
  {
    if s == [] {
    } else {
      BelowAtMost(s[..|s| - 1], v);
    }
  }

  lemma AllBelow(s: seq<int>, v: int)
    requires StableSort.Sorted(s, IntLess()) && (s != [] ==> s[|s| - 1] < v)
    ensures Below(s, v) == |s|
  {
    forall i | 0 <= i < |s| ensures s[i] < v { assert !IntLess()(s[|s| - 1], s[i]) || i == |s| - 1; }
    BelowAtMost(s, v);
  }

  predicate NonNegative(s: seq<int>) {
    s == [] || (s[|s| - 1] >= 0 && NonNegative(s[..|s| - 1]))
  }

  lemma {:induction false} NonNegativeEach(s: seq<int>)
    ensures NonNegative(s) <==> forall i :: 0 <= i < |s| ==> s[i] >= 0
  {
    if s == [] {
    } else {
      NonNegativeEach(s[..|s| - 1]);
    }
  }

  lemma NonNegativeSame(a: seq<int>, b: seq<int>)
    requires multiset(a) == multiset(b) && NonNegative(a)
    ensures NonNegative(b)
  {
    NonNegativeEach(a);
    NonNegativeEach(b);
    forall i | 0 <= i < |b| ensures b[i] >= 0 { assert b[i] in multiset(a); }
  }

  /** Counting below a value does not depend on the order of the samples. */
  lemma {:induction false} BelowSame(a: seq<int>, b: seq<int>, v: nat)
    requires multiset(a) == multiset(b) && NonNegative(a) && NonNegative(b)
    ensures Below(a, v) == Below(b, v)
    decreases v
  {
    if v == 0 {
      NoneBelow(a);
      NoneBelow(b);
    } else {
      BelowSame(a, b, v - 1);
      BelowNext(a, v - 1);
      BelowNext(b, v - 1);
    }
  }

  lemma {:induction false} NoneBelow(s: seq<int>)
    requires NonNegative(s)
    ensures Below(s, 0) == 0
  {
    if s == [] {
    } else {
      NoneBelow(s[..|s| - 1]);
    }
  }

  /** The scan and the sort agree: the value at which the running count reaches the rank is the element
      of that rank. */
  lemma ScanFindsRank(samples: seq<int>, k: int, v: nat)
    requires NonNegative(samples)
    requires 1 <= k <= |samples| && Below(samples, v) < k <= Below(samples, v + 1)
    ensures Sorted(samples)[k - 1] == v
  {
    IntLessOrders();
    StableSort.SortSorts(samples, IntLess());
    NonNegativeSame(samples, Sorted(samples));
    BelowSame(samples, Sorted(samples), v);
    BelowSame(samples, Sorted(samples), v + 1);
    RankInSorted(Sorted(samples), k, v);
  }

  /** The largest sample is the last of the sorted ones. */
  lemma MaxIsLast(samples: seq<int>)
    requires samples != [] && NonNegative(samples)
    ensures Sorted(samples)[|samples| - 1] == MaxOf(samples)
  {
    MaxBelow(samples);
    LastRank(samples, MaxOf(samples));
  }

  lemma LastRank(samples: seq<int>, m: nat)
    requires samples != [] && NonNegative(samples) && Below(samples, m) < |samples| == Below(samples, m + 1)
    ensures Sorted(samples)[|samples| - 1] == m
  {
    ScanFindsRank(samples, |samples|, m);
  }

  lemma MaxBelow(samples: seq<int>)
    requires samples != [] && NonNegative(samples)
    ensures MaxOf(samples) >= 0 && Below(samples, MaxOf(samples)) < |samples| == Below(samples, MaxOf(samples) + 1)
  {
    MaxOfAll(samples);
    BelowAtMost(samples, MaxOf(samples));
    BelowAtMost(samples, MaxOf(samples) + 1);
  }

  lemma {:induction false} MaxOfAll(s: seq<int>)
    requires NonNegative(s)
    ensures MaxOf(s) >= 0 && forall i :: 0 <= i < |s| ==> s[i] <= MaxOf(s)
    ensures s != [] ==> exists i :: 0 <= i < |s| && s[i] == MaxOf(s)
  {
    if s == [] {
    } else {
      var front := s[..|s| - 1];
      MaxOfAll(front);
      if s[|s| - 1] > MaxOf(front) || front == [] {
        assert s[|s| - 1] == MaxOf(s);
      } else {
        var i :| 0 <= i < |front| && front[i] == MaxOf(front);
        assert s[i] == MaxOf(s);
      }
    }
  }

  // ----- what is recorded, and what a percentile is -----

  /** A latency below ten seconds is recorded as it is, and any other as the nearest one that is. */
  lemma BucketIsNearest(latencyUs: int, v: int)
    ensures 0 <= Bucket(latencyUs) < 10_000_000
    ensures 0 <= latencyUs < 10_000_000 ==> Bucket(latencyUs) == latencyUs
    ensures latencyUs < 0 ==> Bucket(latencyUs) == 0
    ensures latencyUs >= 10_000_000 ==> Bucket(latencyUs) == 9_999_999
    ensures 0 <= v < 10_000_000 ==>
              if v <= latencyUs then v <= Bucket(latencyUs) <= latencyUs || Bucket(latencyUs) == v
              else latencyUs <= Bucket(latencyUs) <= v
  {
  }

  // ----- the laws of the definition -----

  /** The percentile of a multiset: any order of the same samples gives the same one, so merging gives
      the percentile of the union. */
  lemma PercentileOrderFree(a: seq<int>, b: seq<int>, pct: real)
    requires multiset(a) == multiset(b)
    ensures PercentileOf(a, pct) == PercentileOf(b, pct)
  {
    assert |a| == |multiset(a)| == |b|;
    IntLessOrders();
    StableSort.SortSorts(a, IntLess());
    StableSort.SortSorts(b, IntLess());
    StableSort.SortedUnique(Sorted(a), Sorted(b), IntLess());
  }

  /** A higher percentile is never a lower value. */
  lemma PercentileMonotone(samples: seq<int>, p: real, q: real)
    requires p <= q
    ensures PercentileOf(samples, p) <= PercentileOf(samples, q)
  {
    IntLessOrders();
    StableSort.SortSorts(samples, IntLess());
    if samples != [] {
      ScaleMonotone(|samples|, p, q);
      var i, j := RankOf(|samples|, p) - 1, RankOf(|samples|, q) - 1;
      assert i < j ==> !IntLess()(Sorted(samples)[j], Sorted(samples)[i]);
    }
  }

  lemma ScaleMonotone(n: nat, p: real, q: real)
    requires p <= q && n > 0
    ensures RankOf(n, p) <= RankOf(n, q)
  {
    ScaleUp(n, p, q);
    TruncateMonotone(Scale(n, p), Scale(n, q));
  }

  lemma ScaleUp(n: nat, p: real, q: real)
    requires p <= q
    ensures Scale(n, p) <= Scale(n, q)
  {
    assert Scale(n, q) - Scale(n, p) == n as real * (q - p);
    NonNegativeProduct(n as real, q - p);
  }

  /** Up to the hundredth percentile the rank is within the samples, so the scan finds it and the
      fallback to the observed maximum is never taken. */
  lemma RankWithin(n: nat, pct: real)
    requires 0.0 <= pct <= 1.0 && n > 0
    ensures Truncate(Scale(n, pct)) <= n
    ensures RankOf(n, pct) == if Truncate(Scale(n, pct)) < 1 then 1 else Truncate(Scale(n, pct))
  {
    ScaleUp(n, pct, 1.0);
    ScaleUp(n, 0.0, pct);
    assert Scale(n, 1.0) == n as real && Scale(n, 0.0) == 0.0;
    TruncateMonotone(Scale(n, pct), n as real);
    assert Truncate(n as real) == n;
  }

  // ----- the definition by counting -----

  lemma {:induction false} RankCounts(s: seq<int>, k: int)
    requires StableSort.Sorted(s, IntLess()) && 1 <= k <= |s|
    ensures Below(s, s[k - 1]) < k <= Below(s, s[k - 1] + 1)
  {
    var front, x := s[..|s| - 1], s[|s| - 1];
    if k == |s| {
      BelowAtMost(front, x);
      AllBelow(s, x + 1);
    } else {
      assert !IntLess()(x, s[k - 1]);
      RankCounts(front, k);
    }
  }

  lemma RankHasCounts(samples: seq<int>, s: seq<int>, k: int)
    requires NonNegative(samples) && NonNegative(s) && multiset(samples) == multiset(s)
    requires StableSort.Sorted(s, IntLess()) && 1 <= k <= |s|
    ensures s[k - 1] >= 0 && Below(samples, s[k - 1]) < k <= Below(samples, s[k - 1] + 1)
  {
    NonNegativeEach(s);
    RankCounts(s, k);
    BelowSame(samples, s, s[k - 1]);
    BelowSame(samples, s, s[k - 1] + 1);
  }

  lemma CountsOfRank(samples: seq<int>, k: int, v: int)
    requires NonNegative(samples) && 1 <= k <= |samples|
    ensures v == Sorted(samples)[k - 1] <==> v >= 0 && Below(samples, v) < k <= Below(samples, v + 1)
  {
    IntLessOrders();
    StableSort.SortSorts(samples, IntLess());
    NonNegativeSame(samples, Sorted(samples));
    RankHasCounts(samples, Sorted(samples), k);
    if v >= 0 && Below(samples, v) < k <= Below(samples, v + 1) {
      ScanFindsRank(samples, k, v);
    }
  }

  /** The percentile by counting, against n p itself: the sample below which there are fewer than n p others, or
      none, and up to which there are more than n p - 1; zero when there is no sample. */
  lemma PercentileByCounts(samples: seq<int>, pct: real, v: int)
    requires NonNegative(samples) && 0.0 <= pct <= 1.0
    ensures samples == [] ==> PercentileOf(samples, pct) == 0
    ensures samples != [] ==> (v == PercentileOf(samples, pct) <==>
            && v in samples
            && (Below(samples, v) == 0 || Below(samples, v) as real <= |samples| as real * pct - 1.0)
            && Below(samples, v + 1) as real > |samples| as real * pct - 1.0)
  {
    if samples != [] {
      var n, k := |samples|, RankOf(|samples|, pct);
      NonNegativeEach(samples);
      RankWithin(n, pct);
      BelowNext(samples, v);
      CountsOfRank(samples, k, v);
      RankAgainst(n, pct, Below(samples, v), Below(samples, v + 1));
    }
  }

  lemma RankAgainst(n: nat, pct: real, below: nat, upTo: nat)
    requires n > 0 && 0.0 <= pct <= 1.0
    ensures below < RankOf(n, pct) <==> below == 0 || below as real <= n as real * pct - 1.0
    ensures RankOf(n, pct) <= upTo <==> upTo >= 1 && upTo as real > n as real * pct - 1.0
  {
    RankWithin(n, pct);
    ScaleUp(n, 0.0, pct);
    FloorAgainst(n as real * pct, below + 1);
    FloorAgainst(n as real * pct, upTo + 1);
  }

  lemma FloorAgainst(x: real, k: int)
    requires x >= 0.0
    ensures k <= Truncate(x) <==> k as real <= x
  {
    if k as real <= x {
      FloorMonotone(k as real, x);
    }
  }

  class HDRHistogram {
    const buckets: array<int>
    var totalCount: int
    var totalSum: int
    var maxObserved: int
    ghost var samples: seq<int>  // what was recorded, clamped

    ghost predicate Valid()
      reads this, buckets
    {
      && buckets.Length == MAX_BUCKET
      && Counts(buckets[..], samples)
      && totalCount == |samples| && totalSum == SumOf(samples) && maxObserved == MaxOf(samples)
    }

    constructor ()
      ensures Valid() && samples == [] && fresh(buckets)
    {
      buckets := new int[MAX_BUCKET](_ => 0);
      totalCount, totalSum, maxObserved, samples := 0, 0, 0, [];
      new;
      NothingCounted(buckets[..]);
    }

    method RecordValue(latencyUs: int)
      requires Valid()
      modifies this, buckets
      ensures Valid() && samples == old(samples) + [Bucket(latencyUs)]
      ensures 0 <= latencyUs < 10_000_000 ==> samples == old(samples) + [latencyUs]
    {
      var v := latencyUs;
      if v < 0 {
        v := 0;
      }
      if v >= MAX_BUCKET {
        v := MAX_BUCKET - 1;
      }
      ghost var counters := buckets[..];
      CountsSnoc(counters, samples, v);
      Snoc(samples, v);
      buckets[v] := buckets[v] + 1;
      assert buckets[..] == counters[v := counters[v] + 1];
      totalCount := totalCount + 1;
      totalSum := totalSum + v;
      if v > maxObserved {
        maxObserved := v;
      }
      samples := samples + [v];
    }

    method Percentile(pct: real) returns (r: int)
      requires Valid()
      ensures r == PercentileOf(samples, pct)
    {
      if totalCount == 0 {
        return 0;
      }
      var target := Target(totalCount, pct);
      var cumulative := 0;
      ghost var counters := buckets[..];
      ScanStart(counters, samples);
      for i := 0 to MAX_BUCKET
        invariant cumulative == Below(samples, i) && cumulative < target
      {
        ScanStep(counters, samples, i, target);
        cumulative := cumulative + buckets[i];
        if cumulative >= target {
          return i;
        }
      }
      ScanEnd(counters, samples);
      if 0.0 <= pct <= 1.0 {
        RankWithin(totalCount, pct);
        assert false;  // the fallback is only for a rank beyond the samples
      }
      return maxObserved;
    }

    /** The count at which the scan stops. */
    method Target(n: int, pct: real) returns (target: int)
      requires n > 0
      ensures target == if Truncate(Scale(n, pct)) < 1 then 1 else Truncate(Scale(n, pct))
    {
      target := Truncate(Scale(n, pct));
      if target < 1 {
        target := 1;
      }
    }

    method Reset()
      requires Valid()
      modifies this, buckets
      ensures Valid() && samples == []
    {
      for i := 0 to buckets.Length
        invariant forall k :: 0 <= k < i ==> buckets[k] == 0
        modifies buckets
      {
        buckets[i] := 0;
      }
      NothingCounted(buckets[..]);
      totalCount, totalSum, maxObserved, samples := 0, 0, 0, [];
    }

    method MergeFrom(other: HDRHistogram)
      requires Valid() && other.Valid() && other != this && other.buckets != buckets
      modifies this, buckets
      ensures Valid() && samples == old(samples) + other.samples
    {
      ghost var mine, theirs := buckets[..], other.buckets[..];
      assert Counts(mine, samples) && Counts(theirs, other.samples);
      for i := 0 to other.buckets.Length
        invariant forall k :: 0 <= k < i ==> buckets[k] == mine[k] + theirs[k]
        invariant forall k :: i <= k < MAX_BUCKET ==> buckets[k] == mine[k]
        modifies buckets
      {
        assert other.buckets[i] == theirs[i];
        buckets[i] := buckets[i] + other.buckets[i];
      }
      ghost var merged := buckets[..];
      assert forall k :: 0 <= k < |merged| ==> merged[k] == mine[k] + theirs[k];
      CountsAppend(mine, theirs, merged, samples, other.samples);
      SumMaxAppend(samples, other.samples);
      totalCount := totalCount + other.totalCount;
      totalSum := totalSum + other.totalSum;
      if other.maxObserved > maxObserved {
        maxObserved := other.maxObserved;
      }
      samples := samples + other.samples;
    }
  }

  /** Every counter is the number of samples of its value, and no sample is without a counter. */
  ghost predicate Counts(counters: seq<int>, samples: seq<int>) {
    && (forall i {:trigger CountAt(counters, samples, i)} :: CountAt(counters, samples, i))
    && (forall k {:trigger Counted(counters, samples, k)} :: Counted(counters, samples, k))
  }

  predicate CountAt(counters: seq<int>, samples: seq<int>, i: int) {
    0 <= i < |counters| ==> counters[i] == multiset(samples)[i]
  }

  predicate Counted(counters: seq<int>, samples: seq<int>, k: int) {
    0 <= k < |samples| ==> 0 <= samples[k] < |counters|
  }

  lemma ScanStart(counters: seq<int>, samples: seq<int>)
    requires Counts(counters, samples)
    ensures Below(samples, 0) == 0
  {
    CountsNonNegative(counters, samples);
    NoneBelow(samples);
  }

  lemma CountsNonNegative(counters: seq<int>, samples: seq<int>)
    requires Counts(counters, samples)
    ensures NonNegative(samples) && forall k :: 0 <= k < |samples| ==> 0 <= samples[k] < |counters|
  {
    forall k | 0 <= k < |samples| ensures 0 <= samples[k] < |counters| { assert Counted(counters, samples, k); }
    NonNegativeEach(samples);
  }

  /** One counter further; once the running count reaches the target, this is the value of that rank. */
  lemma ScanStep(counters: seq<int>, samples: seq<int>, i: nat, target: int)
    requires Counts(counters, samples) && i < |counters| && Below(samples, i) < target && target >= 1
    ensures Below(samples, i) + counters[i] == Below(samples, i + 1)
    ensures Below(samples, i + 1) >= target ==> target <= |samples| && Sorted(samples)[target - 1] == i
  {
    CountsNonNegative(counters, samples);
    assert CountAt(counters, samples, i);
    BelowNext(samples, i);
    BelowAtMost(samples, i + 1);
    if Below(samples, i + 1) >= target {
      ScanFindsRank(samples, target, i);
    }
  }

  /** A scan that runs out has counted every sample, and the last one is the largest. */
  lemma ScanEnd(counters: seq<int>, samples: seq<int>)
    requires Counts(counters, samples) && samples != []
    ensures Below(samples, |counters|) == |samples| && Sorted(samples)[|samples| - 1] == MaxOf(samples)
  {
    CountsNonNegative(counters, samples);
    BelowEnds(samples, 0, |counters|);
    MaxIsLast(samples);
  }

  lemma CountsSnoc(counters: seq<int>, samples: seq<int>, v: int)
    requires Counts(counters, samples) && 0 <= v < |counters|
    ensures Counts(counters[v := counters[v] + 1], samples + [v])
  {
    Snoc(samples, v);
    var counters', samples' := counters[v := counters[v] + 1], samples + [v];
    forall i ensures CountAt(counters', samples', i) { assert CountAt(counters, samples, i); }
    forall k ensures Counted(counters', samples', k) { assert Counted(counters, samples, k); }
  }

  lemma NothingCounted(counters: seq<int>)
    requires forall i :: 0 <= i < |counters| ==> counters[i] == 0
    ensures Counts(counters, [])
  {
    forall i ensures CountAt(counters, [], i) { }
    forall k ensures Counted(counters, [], k) { }
  }

  lemma CountsAppend(a: seq<int>, b: seq<int>, c: seq<int>, s: seq<int>, t: seq<int>)
    requires Counts(a, s) && Counts(b, t) && |a| == |b| == |c| && forall i :: 0 <= i < |a| ==> c[i] == a[i] + b[i]
    ensures Counts(c, s + t)
  {
    assert multiset(s + t) == multiset(s) + multiset(t);
    forall i ensures CountAt(c, s + t, i) { assert CountAt(a, s, i) && CountAt(b, t, i); }
    forall k ensures Counted(c, s + t, k) { assert Counted(a, s, k) && Counted(b, t, k - |s|); }
  }

  lemma {:induction false} SumMaxAppend(a: seq<int>, b: seq<int>)
    ensures SumOf(a + b) == SumOf(a) + SumOf(b)
    ensures MaxOf(a + b) == if MaxOf(b) > MaxOf(a) then MaxOf(b) else MaxOf(a)
  {
    MaxNonNegative(a);
    if b == [] {
      assert a + b == a;
    } else {
      assert (a + b)[..|a + b| - 1] == a + b[..|b| - 1];
      SumMaxAppend(a, b[..|b| - 1]);
    }
  }

  lemma {:induction false} MaxNonNegative(s: seq<int>)
    ensures MaxOf(s) >= 0
  {
    if s == [] {
    } else {
      MaxNonNegative(s[..|s| - 1]);
    }
  }
}
