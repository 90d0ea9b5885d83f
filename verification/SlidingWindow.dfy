/** The rolling window (`services/telemetry-ingester/latency/sliding_window.go`): a ring of histograms,
    one per epoch, the oldest of which is cleared and reused when the epoch advances. The source's ring
    has 30 slots; everything here holds for any ring of at least one. */
module SlidingWindow {
  import opened Latency

  /** What happens to a window. */
  datatype Event = Sample(latencyUs: int) | Advance

  /** The definition of the window, with no ring in it: the samples recorded since the n-th last advance. */
  function Recent(history: seq<Event>, n: nat): seq<int> {
    if history == [] || n == 0 then []
    else
      var before := history[..|history| - 1];
      match history[|history| - 1]
      case Sample(x) => Recent(before, n) + [Bucket(x)]
      case Advance => Recent(before, n - 1)
  }

  /** Every sample expires: k advances later the window holds what a window k shorter held before them, and
      nothing once k reaches n. */
  lemma {:induction false} Expiry(history: seq<Event>, n: nat, k: nat)
    ensures Recent(history + seq(k, _ => Advance), n) == if k < n then Recent(history, n - k) else []
    decreases k
  {
    var later := history + seq(k, _ => Advance);
    if k == 0 {
      assert later == history;
    } else if n > 0 {
      assert later[..|later| - 1] == history + seq(k - 1, _ => Advance);
      Expiry(history, n - 1, k - 1);
    }
  }

  /** The same without clamping: the latencies as they came. */
  function Latencies(history: seq<Event>, n: nat): seq<int> {
    if history == [] || n == 0 then []
    else
      var before := history[..|history| - 1];
      match history[|history| - 1]
      case Sample(x) => Latencies(before, n) + [x]
      case Advance => Latencies(before, n - 1)
  }

  predicate InRange(history: seq<Event>) {
    forall e :: e in history && e.Sample? ==> 0 <= e.latencyUs < 10_000_000
  }

  /** Latencies below ten seconds are in the window as they came. */
  lemma {:induction false} WindowAsItCame(history: seq<Event>, n: nat)
    requires InRange(history)
    ensures Recent(history, n) == Latencies(history, n)
  {
    if history == [] || n == 0 {
    } else {
      var before, e := history[..|history| - 1], history[|history| - 1];
      assert e in history;
      WindowAsItCame(before, if e.Sample? then n else n - 1);
    }
  }

  lemma WindowInRange(history: seq<Event>, n: nat)
    ensures InRange(history) ==> Recent(history, n) == Latencies(history, n)
  {
    if InRange(history) {
      WindowAsItCame(history, n);
    }
  }

  /** The samples epoch by epoch, the current epoch last. */
  function Epochs(history: seq<Event>): (epochs: seq<seq<int>>)
    ensures |epochs| > 0
  {
    if history == [] then [[]]
    else
      var before := Epochs(history[..|history| - 1]);
      match history[|history| - 1]
      case Sample(x) => Add(before, Bucket(x))
      case Advance => before + [[]]
  }

  function Add(epochs: seq<seq<int>>, v: int): (r: seq<seq<int>>)
    requires |epochs| > 0
    ensures |r| == |epochs|
  {
    epochs[|epochs| - 1 := epochs[|epochs| - 1] + [v]]
  }

  lemma EpochsNext(history: seq<Event>, x: int)
    ensures Epochs(history + [Sample(x)]) == Add(Epochs(history), Bucket(x))
    ensures Epochs(history + [Advance]) == Epochs(history) + [[]]
  {
    assert (history + [Sample(x)])[..|history|] == history;
    assert (history + [Advance])[..|history|] == history;
  }

  /** The samples of epoch e; before the first epoch there are none. */
  function At(epochs: seq<seq<int>>, e: int): seq<int> {
    if 0 <= e < |epochs| then epochs[e] else []
  }

  /** The samples of epochs lo up to hi, hi excluded. */
  function Range(epochs: seq<seq<int>>, lo: int, hi: int): seq<int>
    decreases hi - lo
  {
    if hi <= lo then [] else Range(epochs, lo, hi - 1) + At(epochs, hi - 1)
  }

  lemma {:induction false} RangeSplit(epochs: seq<seq<int>>, lo: int, mid: int, hi: int)
    requires lo <= mid <= hi
    ensures Range(epochs, lo, hi) == Range(epochs, lo, mid) + Range(epochs, mid, hi)
    decreases hi - mid
  {
    if mid == hi {
      assert Range(epochs, lo, mid) + [] == Range(epochs, lo, mid);
    } else {
      RangeSplit(epochs, lo, mid, hi - 1);
      Associate(Range(epochs, lo, mid), Range(epochs, mid, hi - 1), At(epochs, hi - 1));
    }
  }

  lemma {:induction false} SameRange(a: seq<seq<int>>, b: seq<seq<int>>, lo: int, hi: int)
    requires hi <= |a| <= |b| && forall e :: 0 <= e < hi ==> a[e] == b[e]
    ensures Range(a, lo, hi) == Range(b, lo, hi)
    decreases hi - lo
  {
    if lo >= hi {
    } else {
      SameRange(a, b, lo, hi - 1);
    }
  }

  lemma {:induction false} NothingYet(lo: int, hi: int)
    requires hi <= 1
    ensures Range([[]], lo, hi) == []
    decreases hi - lo
  {
    if lo >= hi {
    } else {
      NothingYet(lo, hi - 1);
    }
  }

  lemma AddToRange(epochs: seq<seq<int>>, v: int, lo: int)
    requires lo < |epochs| && |epochs| > 0
    ensures Range(Add(epochs, v), lo, |epochs|) == Range(epochs, lo, |epochs|) + [v]
  {
    SameRange(epochs, Add(epochs, v), lo, |epochs| - 1);
    var a, b := Range(epochs, lo, |epochs| - 1), At(epochs, |epochs| - 1);
    assert (a + b) + [v] == a + (b + [v]);
  }

  lemma OpenEpoch(epochs: seq<seq<int>>, lo: int)
    requires lo <= |epochs|
    ensures Range(epochs + [[]], lo, |epochs| + 1) == Range(epochs, lo, |epochs|)
  {
    SameRange(epochs, epochs + [[]], lo, |epochs|);
  }

  /** The window is the last n epochs. */
  lemma {:induction false} RecentIsRange(history: seq<Event>, n: nat)
    ensures Recent(history, n) == Range(Epochs(history), |Epochs(history)| - n, |Epochs(history)|)
  {
    if history == [] {
      NothingYet(1 - n, 1);
    } else if n > 0 {
      var before := history[..|history| - 1];
      match history[|history| - 1]
      case Sample(x) =>
        RecentIsRange(before, n);
        AddToRange(Epochs(before), Bucket(x), |Epochs(before)| - n);
      case Advance =>
        RecentIsRange(before, n - 1);
        OpenEpoch(Epochs(before), |Epochs(before)| - (n - 1));
    }
  }

  /** How many epochs ago slot j of a ring of n was current last, or will have been once the ring has gone
      round for the first time. */
  function Back(n: nat, current: int, j: int): int {
    if j <= current then current - j else current + n - j
  }

  /** What slot j of the ring should hold: the samples of the latest epoch it was current in. */
  function Held(epochs: seq<seq<int>>, n: nat, current: int, j: int): seq<int> {
    At(epochs, |epochs| - 1 - Back(n, current, j))
  }

  /** Recording changes what the current slot should hold, and no other. */
  lemma HeldAfterRecord(epochs: seq<seq<int>>, v: int, n: nat, current: int, j: int)
    requires |epochs| > 0 && 0 <= current < n && 0 <= j < n
    ensures Held(Add(epochs, v), n, current, j) ==
            if j == current then Held(epochs, n, current, j) + [v] else Held(epochs, n, current, j)
  {
  }

  /** Advancing empties the slot that becomes current, and leaves what the others should hold. */
  lemma HeldAfterAdvance(epochs: seq<seq<int>>, n: nat, current: int, j: int)
    requires 0 <= current < n && 0 <= j < n
    ensures Held(epochs + [[]], n, Next(n, current), j) ==
            if j == Next(n, current) then [] else Held(epochs, n, current, j)
  {
  }

  function Next(n: nat, current: int): int {
    if current + 1 == n then 0 else current + 1
  }

  lemma NextIsMod(n: nat, current: int)
    requires 0 <= current < n
    ensures (current + 1) % n == Next(n, current)
  {
  }

  /** What merging the first i slots other than the current one adds up to. */
  function Merged(epochs: seq<seq<int>>, n: nat, current: int, i: nat): seq<int> {
    if i == 0 then []
    else if i - 1 == current then Merged(epochs, n, current, i - 1)
    else Merged(epochs, n, current, i - 1) + Held(epochs, n, current, i - 1)
  }

  /** Before the current slot come those of this round. */
  lemma HeldBefore(epochs: seq<seq<int>>, n: nat, current: int, j: int, lo: int)
    requires 0 <= j < current < n && lo == |epochs| - 1 - current
    ensures Held(epochs, n, current, j) == At(epochs, lo + j)
  {
  }

  lemma {:induction false} MergedUpTo(epochs: seq<seq<int>>, n: nat, current: int, i: nat)
    requires 0 <= current < n && i <= current
    ensures Merged(epochs, n, current, i) == Range(epochs, |epochs| - 1 - current, |epochs| - 1 - current + i)
  {
    if i == 0 {
    } else {
      var lo := |epochs| - 1 - current;
      MergedUpTo(epochs, n, current, i - 1);
      HeldBefore(epochs, n, current, i - 1, lo);
      assert Range(epochs, lo, lo + i) == Range(epochs, lo, lo + i - 1) + At(epochs, lo + i - 1);
    }
  }

  /** Behind the current slot come those left from the round before. */
  lemma {:induction false} MergedBeyond(epochs: seq<seq<int>>, n: nat, current: int, i: nat, lo: int, hi: int)
    requires 0 <= current < i <= n && lo == |epochs| - n && hi == lo + (i - current - 1)
    ensures Merged(epochs, n, current, i) == Merged(epochs, n, current, current) + Range(epochs, lo, hi)
    decreases i
  {
    var a := Merged(epochs, n, current, current);
    if i == current + 1 {
      assert a + [] == a;
    } else {
      MergedBeyond(epochs, n, current, i - 1, lo, hi - 1);
      HeldBehind(epochs, n, current, i - 1, hi - 1);
      RangeNext(epochs, lo, hi, a);
    }
  }

  lemma HeldBehind(epochs: seq<seq<int>>, n: nat, current: int, j: int, e: int)
    requires 0 <= current < j < n && e == |epochs| - n + (j - current - 1)
    ensures Held(epochs, n, current, j) == At(epochs, e)
  {
  }

  lemma RangeNext(epochs: seq<seq<int>>, lo: int, hi: int, a: seq<int>)
    requires lo < hi
    ensures a + Range(epochs, lo, hi) == (a + Range(epochs, lo, hi - 1)) + At(epochs, hi - 1)
  {
    Associate(a, Range(epochs, lo, hi - 1), At(epochs, hi - 1));
  }

  lemma Associate(a: seq<int>, b: seq<int>, c: seq<int>)
    ensures (a + b) + c == a + (b + c)
  {
  }

  /** The order in which the slots are merged: the epochs of this round of the ring, then those left from
      the round before, and the current one last. */
  lemma MergedOrder(history: seq<Event>, n: nat, current: int) returns (older: seq<int>, newer: seq<int>, now: seq<int>)
    requires 0 <= current < n
    ensures Merged(Epochs(history), n, current, n) == newer + older
    ensures Held(Epochs(history), n, current, current) == now
    ensures Recent(history, n) == older + newer + now
  {
    var epochs := Epochs(history);
    var lo, mid, hi := |epochs| - n, |epochs| - 1 - current, |epochs| - 1;
    older, newer, now := Range(epochs, lo, mid), Range(epochs, mid, hi), At(epochs, hi);
    assert Merged(epochs, n, current, n) == newer + older by {
      MergedUpTo(epochs, n, current, current);
      MergedBeyond(epochs, n, current, n, lo, mid);
    }
    assert Recent(history, n) == older + newer + now by {
      RecentIsRange(history, n);
      RangeSplit(epochs, lo, mid, hi);
    }
  }

  /** Merging the slots in that order gives the percentiles of the window. */
  lemma MergedPercentile(history: seq<Event>, n: nat, current: int, samples: seq<int>, pct: real)
    requires 0 <= current < n
    requires samples == Merged(Epochs(history), n, current, n) + Held(Epochs(history), n, current, current)
    ensures PercentileOf(samples, pct) == PercentileOf(Recent(history, n), pct)
  {
    var older, newer, now := MergedOrder(history, n, current);
    Exchange(older, newer, now, pct);
  }

  lemma Exchange(a: seq<int>, b: seq<int>, c: seq<int>, pct: real)
    ensures PercentileOf(b + a + c, pct) == PercentileOf(a + b + c, pct)
  {
    assert multiset(b + a) == multiset(b) + multiset(a) == multiset(a + b);
    assert multiset(b + a + c) == multiset(b + a) + multiset(c);
    assert multiset(a + b + c) == multiset(a + b) + multiset(c);
    PercentileOrderFree(b + a + c, a + b + c, pct);
  }

  class SlidingWindowHistogram {
    const buckets: seq<HDRHistogram>
    var currentIdx: int
    ghost var history: seq<Event>

    ghost function Counters(): set<array<int>> {
      set h | h in buckets :: h.buckets
    }

    /** No two slots share a histogram or its counters. */
    ghost predicate Apart() {
      forall i, j :: 0 <= i < j < |buckets| ==>
        buckets[i] != buckets[j] && buckets[i].buckets != buckets[j].buckets
    }

    /** Each slot holds the latest epoch it was current in. */
    ghost predicate Valid()
      reads this, buckets, Counters()
    {
      && Apart() && 0 <= currentIdx < |buckets|
      && forall j {:trigger Slot(j)} :: Slot(j)
    }

    ghost function Cells(j: int): set<object> {
      if 0 <= j < |buckets| then {buckets[j], buckets[j].buckets} else {}
    }

    ghost predicate Slot(j: int)
      reads this, Cells(j)
    {
      0 <= j < |buckets| ==>
        buckets[j].Valid() && buckets[j].samples == Held(Epochs(history), |buckets|, currentIdx, j)
    }

    constructor (windowBuckets: nat)
      requires windowBuckets >= 1
      ensures Valid() && |buckets| == windowBuckets && history == []
      ensures fresh(set h | h in buckets) && fresh(Counters())
    {
      var slots: seq<HDRHistogram> := [];
      for i := 0 to windowBuckets
        invariant |slots| == i
        invariant forall k :: 0 <= k < i ==> fresh(slots[k]) && fresh(slots[k].buckets)
        invariant forall k :: 0 <= k < i ==> slots[k].Valid() && slots[k].samples == []
        invariant forall k, l :: 0 <= k < l < i ==> slots[k] != slots[l] && slots[k].buckets != slots[l].buckets
      {
        var h := new HDRHistogram();
        slots := slots + [h];
      }
      buckets, currentIdx, history := slots, 0, [];
    }

    method Record(latencyUs: int)
      requires Valid()
      modifies `history, buckets[currentIdx], buckets[currentIdx].buckets
      ensures Valid() && history == old(history) + [Event.Sample(latencyUs)]
    {
      var b := buckets[currentIdx];
      assert Slot(currentIdx);
      b.RecordValue(latencyUs);
      history := history + [Event.Sample(latencyUs)];
      EpochsNext(old(history), latencyUs);
      forall j ensures Slot(j) {
        if 0 <= j < |buckets| {
          assert old(Slot(j));
          HeldAfterRecord(Epochs(old(history)), Bucket(latencyUs), |buckets|, currentIdx, j);
        }
      }
    }

    method Advance()
      requires Valid()
      modifies `currentIdx, `history, buckets, Counters()
      ensures Valid() && history == old(history) + [Event.Advance]
    {
      var next := Successor(currentIdx);
      var b := buckets[next];
      assert old(Slot(next));
      currentIdx := next;
      b.Reset();
      history := history + [Event.Advance];
      EpochsNext(old(history), 0);
      forall j ensures Slot(j) {
        if 0 <= j < |buckets| {
          assert old(Slot(j));
          HeldAfterAdvance(Epochs(old(history)), |buckets|, old(currentIdx), j);
        }
      }
    }

    method Successor(i: int) returns (next: int)
      requires 0 <= i < |buckets|
      ensures next == Next(|buckets|, i)
    {
      next := (i + 1) % |buckets|;
      NextIsMod(|buckets|, i);
    }

    /** The merged histogram, the current slot last. */
    method MergeSlots() returns (merged: HDRHistogram)
      requires Valid()
      ensures merged.Valid() && fresh(merged) && fresh(merged.buckets)
      ensures var epochs := Epochs(history);
              merged.samples == Merged(epochs, |buckets|, currentIdx, |buckets|)
                                + Held(epochs, |buckets|, currentIdx, currentIdx)
    {
      merged := new HDRHistogram();
      forall j ensures Slot(j) { assert old(Slot(j)); }
      for i := 0 to |buckets|
        invariant Valid() && merged.Valid() && merged.samples == Merged(Epochs(history), |buckets|, currentIdx, i)
        modifies merged, merged.buckets
      {
        if i == currentIdx {
          continue;
        }
        assert Slot(i);
        merged.MergeFrom(buckets[i]);
      }
      assert Slot(currentIdx);
      merged.MergeFrom(buckets[currentIdx]);
    }

    method GetPercentiles() returns (p50: int, p90: int, p99: int)
      requires Valid()
      ensures p50 == PercentileOf(Recent(history, |buckets|), 0.50)
      ensures p90 == PercentileOf(Recent(history, |buckets|), 0.90)
      ensures p99 == PercentileOf(Recent(history, |buckets|), 0.99)
      ensures InRange(history) ==> Recent(history, |buckets|) == Latencies(history, |buckets|)
    {
      var merged := MergeSlots();
      WindowInRange(history, |buckets|);
      MergedPercentile(history, |buckets|, currentIdx, merged.samples, 0.50);
      MergedPercentile(history, |buckets|, currentIdx, merged.samples, 0.90);
      MergedPercentile(history, |buckets|, currentIdx, merged.samples, 0.99);
      p50 := merged.Percentile(0.50);
      p90 := merged.Percentile(0.90);
      p99 := merged.Percentile(0.99);
    }
  }
}
