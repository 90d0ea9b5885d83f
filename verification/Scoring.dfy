/** The leaderboard (`services/leaderboard-api/scorer/scorer.go`): composite scores, order and ranks, over
    exact reals. */
module Scoring {
  import opened Reals
  import StableSort

  function Clamp(v: real, lo: real, hi: real): real {
    if v < lo then lo else if v > hi then hi else v
  }

  /** Rounds to hundredths by truncating, as the source's conversion to an integer does. */
  function Round2(v: real): real {
    Truncate(v * 100.0 + 0.5) as real / 100.0
  }

  lemma Round2Monotone(x: real, y: real)
    requires x <= y
    ensures Round2(x) <= Round2(y)
  {
    TruncateMonotone(x * 100.0 + 0.5, y * 100.0 + 0.5);
  }

  /** A value of whole hundredths is not changed. */
  lemma Round2Whole(n: nat)
    ensures Round2(n as real / 100.0) == n as real / 100.0
  {
    assert n as real / 100.0 * 100.0 + 0.5 == n as real + 0.5;
    assert (n as real + 0.5).Floor == n;
  }

  /** The nearest number of whole hundredths, halves going up. */
  predicate Hundredths(r: real, v: real) {
    100.0 * r == (100.0 * v + 0.5).Floor as real
  }

  lemma Round2Is(v: real)
    requires v >= 0.0
    ensures Hundredths(Round2(v), v)
  {
    assert v * 100.0 + 0.5 == 100.0 * v + 0.5 >= 0.0;
  }

  /** What is out of range is cut to the nearest end. */
  predicate CutTo(w: real, v: real, lo: real, hi: real) {
    if v < lo then w == lo else if v > hi then w == hi else w == v
  }

  datatype Entry = Entry(contestantID: string, p99: int, tps: real, correctness: real, score: real, rank: int)

  // ----- scores -----

  /** The extremes the scores are normalised by. */
  datatype Span = Span(minTps: real, maxTps: real, minP99: real, maxP99: real)

  function MinF(a: real, b: real): real {
    if a < b then a else b
  }

  function MaxF(a: real, b: real): real {
    if a > b then a else b
  }

  function Widen(s: Span, e: Entry): Span {
    Span(MinF(s.minTps, e.tps), MaxF(s.maxTps, e.tps), MinF(s.minP99, e.p99 as real), MaxF(s.maxP99, e.p99 as real))
  }

  function SpanOf(entries: seq<Entry>): Span
    requires entries != []
  {
    var e := entries[|entries| - 1];
    if |entries| == 1 then Span(e.tps, e.tps, e.p99 as real, e.p99 as real)
    else Widen(SpanOf(entries[..|entries| - 1]), e)
  }

  function Norm(v: real, lo: real, hi: real): real {
    if hi == lo then 1.0 else (v - lo) / (hi - lo)
  }

  function Composite(e: Entry, s: Span): real {
    0.40 * Norm(e.tps, s.minTps, s.maxTps)
    + 0.40 * (1.0 - Norm(e.p99 as real, s.minP99, s.maxP99))
    + 0.20 * e.correctness
  }

  function ScoreOf(e: Entry, s: Span): real {
    Round2(Clamp(Composite(e, s) * 100.0, 0.0, 100.0))
  }

  function Scorer(s: Span): Entry -> Entry {
    (e: Entry) => e.(score := ScoreOf(e, s))
  }

  function Map<T, U>(f: T -> U, s: seq<T>): (r: seq<U>)
    ensures |r| == |s| && forall i :: 0 <= i < |s| ==> r[i] == f(s[i])
  {
    seq(|s|, i requires 0 <= i < |s| => f(s[i]))
  }

  function Scored(entries: seq<Entry>): (r: seq<Entry>)
    ensures |r| == |entries|
  {
    if entries == [] then [] else Map(Scorer(SpanOf(entries)), entries)
  }

  // ----- order and ranks -----

  function Better(): (Entry, Entry) -> bool {
    (e: Entry, f: Entry) =>
      if e.score != f.score then e.score > f.score
      else if e.correctness != f.correctness then e.correctness > f.correctness
      else e.p99 < f.p99
  }

  lemma BetterOrders()
    ensures StableSort.Ordering(Better())
  {
    forall x, y, z ensures StableSort.Between(Better(), x, y, z) { }
  }

  /** The rank loop: a new score takes its position, an equal one its predecessor's rank. */
  function RankAt(sorted: seq<Entry>, i: nat): int
    requires i < |sorted|
  {
    if i == 0 then 1
    else if sorted[i - 1].score != sorted[i].score then i + 1
    else RankAt(sorted, i - 1)
  }

  function WithRanks(sorted: seq<Entry>): (r: seq<Entry>)
    ensures |r| == |sorted| && forall i :: 0 <= i < |r| ==> r[i] == sorted[i].(rank := RankAt(sorted, i))
  {
    seq(|sorted|, i requires 0 <= i < |sorted| => sorted[i].(rank := RankAt(sorted, i)))
  }

  function Leaderboard(entries: seq<Entry>): (r: seq<Entry>)
    ensures |r| == |entries|
  {
    WithRanks(StableSort.Sort(Scored(entries), Better()))
  }

  /** How many entries score strictly higher. */
  function Above(entries: seq<Entry>, score: real): nat {
    if entries == [] then 0
    else Above(entries[..|entries| - 1], score) + if entries[|entries| - 1].score > score then 1 else 0
  }

  lemma {:induction false} AboveSplit(s: seq<Entry>, k: nat, x: real)
    requires k <= |s| && forall j :: 0 <= j < |s| ==> (s[j].score > x <==> j < k)
    ensures Above(s, x) == k
  {
    if s == [] {
    } else {
      AboveSplit(s[..|s| - 1], if k < |s| then k else k - 1, x);
    }
  }

  /** On a sorted board the loop counts: each rank is one more than the number of higher scores. */
  lemma {:induction false} RankIsCount(s: seq<Entry>, i: nat)
    requires StableSort.Sorted(s, Better()) && i < |s|
    ensures RankAt(s, i) == 1 + Above(s, s[i].score)
  {
    if i > 0 && s[i - 1].score == s[i].score {
      RankIsCount(s, i - 1);
    } else {
      forall j | 0 <= j < |s| ensures s[j].score > s[i].score <==> j < i {
        if j < i {
          assert j == i - 1 || !Better()(s[i - 1], s[j]);
          assert !Better()(s[i], s[i - 1]);
        } else {
          assert j == i || !Better()(s[j], s[i]);
        }
      }
      AboveSplit(s, i, s[i].score);
    }
  }

  function Ranker(all: seq<Entry>): Entry -> Entry {
    (e: Entry) => e.(rank := 1 + Above(all, e.score))
  }

  lemma WithRanksIs(s: seq<Entry>)
    requires StableSort.Sorted(s, Better())
    ensures WithRanks(s) == Map(Ranker(s), s)
  {
    forall i | 0 <= i < |s| ensures WithRanks(s)[i] == Map(Ranker(s), s)[i] {
      RankIsCount(s, i);
    }
  }

  // ----- what does not depend on the order of the entries -----

  lemma {:induction false} MapSame<T, U>(f: T -> U, s: seq<T>, t: seq<T>)
    requires multiset(s) == multiset(t)
    ensures multiset(Map(f, s)) == multiset(Map(f, t))
    decreases |s|
  {
    assert |s| == |multiset(s)| == |multiset(t)| == |t|;
    if s == [] {
    } else {
      var front, x := s[..|s| - 1], s[|s| - 1];
      assert s == front + [x];
      assert x in multiset(t);
      var i :| 0 <= i < |t| && t[i] == x;
      StableSort.DropLast(s, x);
      Without(t, i);
      MapWithout(f, t, i);
      MapSame(f, front, t[..i] + t[i + 1..]);
      assert Map(f, s) == Map(f, front) + [f(x)];
    }
  }

  lemma MapWithout<T, U>(f: T -> U, t: seq<T>, i: nat)
    requires i < |t|
    ensures multiset(Map(f, t)) == multiset(Map(f, t[..i] + t[i + 1..])) + multiset{f(t[i])}
  {
    var without := t[..i] + t[i + 1..];
    Without(Map(f, t), i);
    assert Map(f, without) == Map(f, t)[..i] + Map(f, t)[i + 1..];
  }

  lemma Without<T>(t: seq<T>, i: nat)
    requires i < |t|
    ensures multiset(t) == multiset(t[..i] + t[i + 1..]) + multiset{t[i]}
    ensures multiset(t[..i] + t[i + 1..]) == multiset(t) - multiset{t[i]}
  {
    assert t == t[..i] + [t[i]] + t[i + 1..];
  }

  /** The span is the least one that covers every entry. */
  predicate Covers(s: Span, e: Entry) {
    s.minTps <= e.tps <= s.maxTps && s.minP99 <= e.p99 as real <= s.maxP99
  }

  lemma {:induction false} SpanCovers(entries: seq<Entry>, e: Entry)
    requires e in entries
    ensures Covers(SpanOf(entries), e)
  {
    if e != entries[|entries| - 1] {
      SpanCovers(entries[..|entries| - 1], e);
    } else if |entries| > 1 {
      var f := entries[|entries| - 2];
      SpanCovers(entries[..|entries| - 1], f);
    }
  }

  lemma {:induction false} SpanAttained(entries: seq<Entry>, s: Span)
    requires entries != [] && forall e :: e in entries ==> Covers(s, e)
    ensures var t := SpanOf(entries);
            s.minTps <= t.minTps && t.maxTps <= s.maxTps && s.minP99 <= t.minP99 && t.maxP99 <= s.maxP99
  {
    if |entries| > 1 {
      SpanAttained(entries[..|entries| - 1], s);
    }
    assert Covers(s, entries[|entries| - 1]);
  }

  lemma SpanOrderFree(a: seq<Entry>, b: seq<Entry>)
    requires a != [] && b != [] && multiset(a) == multiset(b)
    ensures SpanOf(a) == SpanOf(b)
  {
    forall e | e in b ensures Covers(SpanOf(a), e) { assert e in multiset(a); SpanCovers(a, e); }
    forall e | e in a ensures Covers(SpanOf(b), e) { assert e in multiset(b); SpanCovers(b, e); }
    SpanAttained(a, SpanOf(b));
    SpanAttained(b, SpanOf(a));
  }

  lemma ScoredOrderFree(a: seq<Entry>, b: seq<Entry>)
    requires multiset(a) == multiset(b)
    ensures multiset(Scored(a)) == multiset(Scored(b))
  {
    assert |a| == |multiset(a)| == |multiset(b)| == |b|;
    if a != [] {
      SpanOrderFree(a, b);
      MapSame(Scorer(SpanOf(a)), a, b);
    }
  }

  lemma {:induction false} AboveOrderFree(a: seq<Entry>, b: seq<Entry>, x: real)
    requires multiset(a) == multiset(b)
    ensures Above(a, x) == Above(b, x)
    decreases |a|
  {
    assert |a| == |multiset(a)| == |multiset(b)| == |b|;
    if a == [] {
    } else {
      var front, e := a[..|a| - 1], a[|a| - 1];
      assert a == front + [e];
      assert e in multiset(b);
      var i :| 0 <= i < |b| && b[i] == e;
      StableSort.DropLast(a, e);
      Without(b, i);
      AboveOrderFree(front, b[..i] + b[i + 1..], x);
      AboveWithout(b, i, x);
    }
  }

  lemma {:induction false} AboveWithout(s: seq<Entry>, i: nat, x: real)
    requires i < |s|
    ensures Above(s, x) == Above(s[..i] + s[i + 1..], x) + if s[i].score > x then 1 else 0
  {
    var front := s[..|s| - 1];
    if i < |s| - 1 {
      AboveWithout(front, i, x);
      assert (s[..i] + s[i + 1..])[..|s| - 2] == front[..i] + front[i + 1..];
    } else {
      assert s[..i] + s[i + 1..] == front;
    }
  }

  lemma LeaderboardIs(entries: seq<Entry>)
    ensures var s := StableSort.Sort(Scored(entries), Better());
            StableSort.Sorted(s, Better()) && multiset(s) == multiset(Scored(entries))
            && Leaderboard(entries) == Map(Ranker(Scored(entries)), s)
  {
    BetterOrders();
    var s := StableSort.Sort(Scored(entries), Better());
    StableSort.SortSorts(Scored(entries), Better());
    WithRanksIs(s);
    forall i | 0 <= i < |s| ensures Map(Ranker(s), s)[i] == Map(Ranker(Scored(entries)), s)[i] {
      AboveOrderFree(s, Scored(entries), s[i].score);
    }
  }

  /** The leaderboard of the same entries in another order has the same scores and ranks: only entries that
      tie in every key can change places. */
  lemma LeaderboardOrderFree(a: seq<Entry>, b: seq<Entry>)
    requires multiset(a) == multiset(b)
    ensures multiset(Leaderboard(a)) == multiset(Leaderboard(b))
  {
    LeaderboardIs(a);
    LeaderboardIs(b);
    ScoredOrderFree(a, b);
    var s, t := StableSort.Sort(Scored(a), Better()), StableSort.Sort(Scored(b), Better());
    MapSame(Ranker(Scored(a)), s, t);
    forall i | 0 <= i < |t| ensures Map(Ranker(Scored(a)), t)[i] == Map(Ranker(Scored(b)), t)[i] {
      AboveOrderFree(Scored(a), Scored(b), t[i].score);
    }
    assert Map(Ranker(Scored(a)), t) == Map(Ranker(Scored(b)), t);
  }

  // ----- what ranks and scores mean -----

  /** In the leaderboard every rank is one more than the number of entries with a strictly higher score. */
  lemma RanksCount(entries: seq<Entry>, i: nat)
    requires i < |entries|
    ensures var r := Leaderboard(entries);
            r[i].rank == 1 + Above(r, r[i].score)
  {
    var s := StableSort.Sort(Scored(entries), Better());
    LeaderboardIs(entries);
    RankIsCount(s, i);
    AboveSameScores(s, Leaderboard(entries), s[i].score);
  }

  lemma {:induction false} AboveSameScores(s: seq<Entry>, t: seq<Entry>, x: real)
    requires |s| == |t| && forall i :: 0 <= i < |s| ==> s[i].score == t[i].score
    ensures Above(s, x) == Above(t, x)
  {
    if s == [] {
    } else {
      AboveSameScores(s[..|s| - 1], t[..|t| - 1], x);
    }
  }

  lemma {:induction false} AboveMonotone(s: seq<Entry>, x: real, y: real)
    requires x <= y
    ensures Above(s, y) <= Above(s, x)
  {
    if s == [] {
    } else {
      AboveMonotone(s[..|s| - 1], x, y);
    }
  }

  lemma {:induction false} AboveStrict(s: seq<Entry>, e: Entry, x: real)
    requires e in s && x < e.score
    ensures Above(s, e.score) < Above(s, x)
  {
    if e == s[|s| - 1] {
      AboveMonotone(s[..|s| - 1], x, e.score);
    } else {
      AboveStrict(s[..|s| - 1], e, x);
    }
  }

  /** Ranks order the entries exactly as their scores do. */
  lemma RanksFollowScores(entries: seq<Entry>, i: nat, j: nat)
    requires i < |entries| && j < |entries|
    ensures var r := Leaderboard(entries);
            r[i].rank < r[j].rank <==> r[i].score > r[j].score
  {
    var r := Leaderboard(entries);
    RanksCount(entries, i);
    RanksCount(entries, j);
    if r[i].score > r[j].score {
      AboveStrict(r, r[i], r[j].score);
    } else {
      AboveMonotone(r, r[i].score, r[j].score);
    }
  }

  lemma NormMonotone(v: real, w: real, lo: real, hi: real)
    requires lo <= hi && v <= w
    ensures Norm(v, lo, hi) <= Norm(w, lo, hi)
  {
    if lo < hi {
      var d := hi - lo;
      Quotient(v - lo, d);
      Quotient(w - lo, d);
      ScaleOrder(d, (v - lo) / d, (w - lo) / d);
    }
  }

  /** No worse in throughput, in tail latency and in correctness. */
  predicate NoWorse(e: Entry, f: Entry) {
    e.tps >= f.tps && e.p99 <= f.p99 && e.correctness >= f.correctness
  }

  /** Normalising, clamping and rounding keep the order. */
  lemma ScoreMonotone(e: Entry, f: Entry, s: Span)
    requires NoWorse(e, f) && s.minTps <= s.maxTps && s.minP99 <= s.maxP99
    ensures ScoreOf(e, s) >= ScoreOf(f, s)
  {
    NormMonotone(f.tps, e.tps, s.minTps, s.maxTps);
    NormMonotone(e.p99 as real, f.p99 as real, s.minP99, s.maxP99);
    Round2Monotone(Clamp(Composite(f, s) * 100.0, 0.0, 100.0), Clamp(Composite(e, s) * 100.0, 0.0, 100.0));
  }

  lemma ScoreInRange(e: Entry, s: Span)
    ensures 0.0 <= ScoreOf(e, s) <= 100.0
  {
    var v := Clamp(Composite(e, s) * 100.0, 0.0, 100.0);
    Round2Monotone(0.0, v);
    Round2Monotone(v, 100.0);
    Round2Whole(0);
    Round2Whole(10000);
  }

  /** Every row of the leaderboard is an entry with its score under the common span. */
  lemma RowIsScored(entries: seq<Entry>, i: nat) returns (e: Entry)
    requires i < |entries|
    ensures e in entries
    ensures var r := Leaderboard(entries)[i];
            r == e.(score := ScoreOf(e, SpanOf(entries)), rank := r.rank)
  {
    var s := StableSort.Sort(Scored(entries), Better());
    LeaderboardIs(entries);
    assert s[i] in multiset(Scored(entries));
    var k :| 0 <= k < |entries| && Scored(entries)[k] == s[i];
    e := entries[k];
    assert s[i] == Scorer(SpanOf(entries))(e);
  }

  /** The extremes of the entries. */
  ghost predicate Extremes(s: Span, entries: seq<Entry>) {
    && (forall e :: e in entries ==> Covers(s, e))
    && (exists e :: e in entries && e.tps == s.minTps) && (exists e :: e in entries && e.tps == s.maxTps)
    && (exists e :: e in entries && e.p99 as real == s.minP99)
    && (exists e :: e in entries && e.p99 as real == s.maxP99)
  }

  lemma ExtremesAreSpan(s: Span, entries: seq<Entry>)
    requires Extremes(s, entries)
    ensures entries != [] && SpanOf(entries) == s
  {
    SpanAttained(entries, s);
    forall e | e in entries ensures Covers(SpanOf(entries), e) { SpanCovers(entries, e); }
  }

  /** x says where v lies between lo and hi, and is 1 if they are the same. */
  predicate LiesAt(v: real, lo: real, hi: real, x: real) {
    if lo == hi then x == 1.0 else v == lo + x * (hi - lo)
  }

  lemma NormIs(v: real, lo: real, hi: real, x: real)
    requires lo <= hi && LiesAt(v, lo, hi, x)
    ensures Norm(v, lo, hi) == x
  {
    if lo < hi {
      var d := hi - lo;
      Quotient(v - lo, d);
      assert v - lo == x * d == d * x;
      SameFactor(d, (v - lo) / d, x);
    }
  }

  /** The score of a row in numbers: forty points for throughput, forty for tail latency and twenty for correctness,
      each in proportion to where the row lies between the extremes of the board, cut to 0 to 100 and rounded. */
  lemma ScoreIs(entries: seq<Entry>, i: nat, s: Span, x: real, y: real, w: real)
    requires i < |entries| && Extremes(s, entries)
    requires var r := Leaderboard(entries)[i];
             && LiesAt(r.tps, s.minTps, s.maxTps, x) && LiesAt(r.p99 as real, s.minP99, s.maxP99, y)
             && CutTo(w, 40.0 * x + 40.0 * (1.0 - y) + 20.0 * r.correctness, 0.0, 100.0)
    ensures Hundredths(Leaderboard(entries)[i].score, w)
  {
    var r := Leaderboard(entries)[i];
    var e := RowIsScored(entries, i);
    ExtremesAreSpan(s, entries);
    assert Covers(s, e);
    NormIs(r.tps, s.minTps, s.maxTps, x);
    NormIs(r.p99 as real, s.minP99, s.maxP99, y);
    assert Composite(e, s) * 100.0 == 40.0 * x + 40.0 * (1.0 - y) + 20.0 * r.correctness;
    Round2Is(w);
  }

  /** Rows come by score, then by correctness, then by tail latency. */
  lemma RowsInOrder(entries: seq<Entry>, i: nat, j: nat)
    requires i < j < |entries|
    ensures var r, q := Leaderboard(entries)[i], Leaderboard(entries)[j];
            || r.score > q.score
            || (r.score == q.score && (r.correctness > q.correctness
                                       || (r.correctness == q.correctness && r.p99 <= q.p99)))
  {
    var s := StableSort.Sort(Scored(entries), Better());
    LeaderboardIs(entries);
    assert !Better()(s[j], s[i]);
  }

  /** A row no worse than another in all three measures scores no lower and ranks no worse. */
  lemma NoWorseRanksNoWorse(entries: seq<Entry>, i: nat, j: nat)
    requires i < |entries| && j < |entries| && NoWorse(Leaderboard(entries)[i], Leaderboard(entries)[j])
    ensures var r := Leaderboard(entries);
            0.0 <= r[j].score <= r[i].score <= 100.0 && 1 <= r[i].rank <= r[j].rank
  {
    var r, span := Leaderboard(entries), SpanOf(entries);
    var e := RowIsScored(entries, i);
    var f := RowIsScored(entries, j);
    SpanCovers(entries, e);
    ScoreMonotone(e, f, span);
    ScoreInRange(e, span);
    ScoreInRange(f, span);
    RanksCount(entries, i);
    RanksCount(entries, j);
    AboveMonotone(r, r[j].score, r[i].score);
  }

  // ----- the source's loops -----

  method ComputeScores(entries: array<Entry>)
    modifies entries
    ensures entries[..] == Scored(old(entries[..]))
  {
    if entries.Length == 0 {
      return;
    }
    ghost var given := entries[..];
    var span := FindSpan(entries);
    for i := 0 to entries.Length
      invariant forall k :: 0 <= k < i ==> entries[k] == Scored(given)[k]
      invariant forall k :: i <= k < entries.Length ==> entries[k] == given[k]
    {
      entries[i] := entries[i].(score := ScoreOf(entries[i], span));
    }
    assert entries[..] == Scored(given);
  }

  method FindSpan(entries: array<Entry>) returns (s: Span)
    requires entries.Length > 0
    ensures s == SpanOf(entries[..])
  {
    var first := entries[0];
    s := Span(first.tps, first.tps, first.p99 as real, first.p99 as real);
    for i := 0 to entries.Length
      invariant s == SpanOf(entries[..if i == 0 then 1 else i])
    {
      assert i > 0 ==> entries[..i + 1][..i] == entries[..i];
      s := Widen(s, entries[i]);
    }
    assert entries[..entries.Length] == entries[..];
  }

  method AssignRanks(entries: array<Entry>)
    modifies entries
    ensures entries[..] == WithRanks(old(entries[..]))
  {
    ghost var sorted := entries[..];
    var rank := 1;
    for i := 0 to entries.Length
      invariant forall k :: 0 <= k < i ==> entries[k] == WithRanks(sorted)[k]
      invariant forall k :: i <= k < entries.Length ==> entries[k] == sorted[k]
      invariant rank == if i == 0 then 1 else RankAt(sorted, i - 1)
    {
      if i > 0 && entries[i - 1].score != entries[i].score {
        rank := i + 1;
      }
      entries[i] := entries[i].(rank := rank);
    }
    assert entries[..] == WithRanks(sorted);
  }

  /** The second half of Compute: score, sort and rank in place. */
  method Rank(entries: array<Entry>)
    modifies entries
    ensures entries[..] == Leaderboard(old(entries[..]))
  {
    ComputeScores(entries);
    var sorted := StableSort.Sort(entries[..], Better());
    forall i | 0 <= i < entries.Length {
      entries[i] := sorted[i];
    }
    assert entries[..] == sorted;
    AssignRanks(entries);
  }
}
