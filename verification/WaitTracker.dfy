/** The rolling window of job wait times and its percentiles (packages/workers/src/wait-tracker.ts). */
module WaitTrackers {
  import opened Common
  import opened Windows

  datatype Sample = Sample(ts: int, ms: real)

  // ---- Sorting and counting ----

  function Insert(x: real, s: seq<real>): seq<real> {
    if s == [] then [x] else if x <= s[0] then [x] + s else [s[0]] + Insert(x, s[1..])
  }

  function Sort(s: seq<real>): seq<real> {
    if s == [] then [] else Insert(s[0], Sort(s[1..]))
  }

  ghost predicate Sorted(s: seq<real>) {
    forall i, j :: 0 <= i <= j < |s| ==> s[i] <= s[j]
  }

  /** How many values are at most v. */
  function AtMost(s: seq<real>, v: real): nat {
    if s == [] then 0 else (if s[0] <= v then 1 else 0) + AtMost(s[1..], v)
  }

  /** How many values are below v. */
  function Below(s: seq<real>, v: real): nat {
    if s == [] then 0 else (if s[0] < v then 1 else 0) + Below(s[1..], v)
  }

  lemma {:induction false} InsertSorts(x: real, s: seq<real>)
    requires Sorted(s)
    ensures var r := Insert(x, s); Sorted(r) && |r| == |s| + 1 && (forall y :: y in r <==> y == x || y in s)
  {
    hide Sorted;
    SortedTail(s);
    if s == [] || x <= s[0] {
      SortedFrom(x, s);
      assert [x] + [] == [x];
    } else {
      assert s == [s[0]] + s[1..];
      assert forall y :: y in s[1..] ==> y in s;
      InsertSorts(x, s[1..]);
      SortedFrom(s[0], Insert(x, s[1..]));
    }
  }

  lemma SortedTail(s: seq<real>)
    requires Sorted(s)
    ensures forall y :: y in s ==> s[0] <= y
    ensures Sorted(if s == [] then [] else s[1..])
  {
  }

  lemma SortedFrom(first: real, rest: seq<real>)
    requires Sorted(rest) && forall y :: y in rest ==> first <= y
    ensures Sorted([first] + rest)
  {
    assert forall k :: 0 <= k < |rest| ==> rest[k] in rest;
  }

  lemma {:induction false} InsertCounts(x: real, s: seq<real>, v: real)
    ensures var r := Insert(x, s);
            && AtMost(r, v) == AtMost(s, v) + (if x <= v then 1 else 0)
            && Below(r, v) == Below(s, v) + (if x < v then 1 else 0)
  {
    if s == [] || x <= s[0] {
      assert ([x] + s)[1..] == s;
    } else {
      InsertCounts(x, s[1..], v);
      assert ([s[0]] + Insert(x, s[1..]))[1..] == Insert(x, s[1..]);
    }
  }

  lemma {:induction false} SortSorts(s: seq<real>, v: real)
    ensures Sorted(Sort(s)) && |Sort(s)| == |s| && (forall y :: y in Sort(s) <==> y in s)
    ensures AtMost(Sort(s), v) == AtMost(s, v) && Below(Sort(s), v) == Below(s, v)
  {
    if s != [] {
      SortSorts(s[1..], v);
      InsertSorts(s[0], Sort(s[1..]));
      InsertCounts(s[0], Sort(s[1..]), v);
      assert s == [s[0]] + s[1..];
    }
  }

  lemma {:induction false} CountsConcat(a: seq<real>, b: seq<real>, v: real)
    ensures AtMost(a + b, v) == AtMost(a, v) + AtMost(b, v) && Below(a + b, v) == Below(a, v) + Below(b, v)
  {
    if a == [] {
      assert a + b == b;
    } else {
      CountsConcat(a[1..], b, v);
      assert (a + b)[1..] == a[1..] + b;
    }
  }

  lemma {:induction false} CountsInSorted(s: seq<real>, k: nat)
    requires Sorted(s) && k < |s|
    ensures AtMost(s, s[k]) >= k + 1 && Below(s, s[k]) <= k
  {
    assert s == s[..k + 1] + s[k + 1..] && s == s[..k] + s[k..];
    CountsConcat(s[..k + 1], s[k + 1..], s[k]);
    CountsConcat(s[..k], s[k..], s[k]);
    AllAtMost(s[..k + 1], s[k]);
    NoneBelow(s[k..], s[k]);
    BelowLength(s[..k], s[k]);
  }

  lemma {:induction false} AllAtMost(s: seq<real>, v: real)
    requires forall i :: 0 <= i < |s| ==> s[i] <= v
    ensures AtMost(s, v) == |s|
  {
    if s != [] { AllAtMost(s[1..], v); }
  }

  lemma {:induction false} NoneBelow(s: seq<real>, v: real)
    requires forall i :: 0 <= i < |s| ==> v <= s[i]
    ensures Below(s, v) == 0
  {
    if s != [] { NoneBelow(s[1..], v); }
  }

  lemma {:induction false} BelowLength(s: seq<real>, v: real)
    ensures Below(s, v) <= |s|
  {
    if s != [] { BelowLength(s[1..], v); }
  }

  // ---- Percentiles ----

  /** ceil(percent / 100 * n) */
  function Rank(percent: nat, n: nat): nat {
    (percent * n + 99) / 100
  }

  /** v is the nearest-rank percentile of the values: one of them, with at least `rank` of them at
      most v and fewer than `rank` below it. No values have the percentile 0. */
  ghost predicate NearestRank(values: seq<real>, percent: nat, v: real) {
    if values == [] then v == 0.0
    else v in values && AtMost(values, v) >= Rank(percent, |values|) > Below(values, v)
  }

  lemma {:induction false} BelowMore(s: seq<real>, v: real, w: real)
    requires v < w
    ensures AtMost(s, v) <= Below(s, w)
  {
    if s != [] { BelowMore(s[1..], v, w); }
  }

  /** There is only one such value: the percentile does not depend on the order of the samples. */
  lemma NearestRankIsUnique(values: seq<real>, percent: nat, v: real, w: real)
    requires NearestRank(values, percent, v) && NearestRank(values, percent, w)
    ensures v == w
  {
    if v < w { BelowMore(values, v, w); }
    if w < v { BelowMore(values, w, v); }
  }

  /** In per cent: at least so many of the values are at most the percentile, fewer are below it. */
  lemma NearestRankShare(values: seq<real>, percent: nat, v: real)
    requires values != [] && NearestRank(values, percent, v)
    ensures v in values && 100 * AtMost(values, v) >= percent * |values| > 100 * Below(values, v)
  {
  }

  /** Higher percentiles are never smaller. */
  lemma PercentilesGrow(values: seq<real>, low: nat, high: nat, v: real, w: real)
    requires low <= high && NearestRank(values, low, v) && NearestRank(values, high, w)
    ensures v <= w
  {
    if values != [] && w < v {
      BelowMore(values, w, v);
      RankGrows(low, high, |values|);
    }
  }

  lemma RankGrows(low: nat, high: nat, n: nat)
    requires low <= high
    ensures Rank(low, n) <= Rank(high, n)
  {
    assert low * n <= high * n;
  }

  lemma RankInRange(percent: nat, n: nat)
    requires 1 <= percent <= 100 && n >= 1
    ensures 1 <= Rank(percent, n) <= n
  {
    assert 1 <= percent * n <= 100 * n;
  }

  lemma Reordered(a: seq<real>, b: seq<real>, percent: nat, v: real)
    requires NearestRank(b + a, percent, v)
    ensures NearestRank(a + b, percent, v)
  {
    CountsConcat(a, b, v);
    CountsConcat(b, a, v);
    if a + b != [] { assert b + a != []; }
  }

  lemma PickedByRank(values: seq<real>, percent: nat)
    requires values != [] && 1 <= percent <= 100
    ensures 1 <= Rank(percent, |values|) <= |values| == |Sort(values)|
    ensures NearestRank(values, percent, Sort(values)[Rank(percent, |values|) - 1])
  {
    RankInRange(percent, |values|);
    SortSorts(values, 0.0);
    var k := Rank(percent, |values|) - 1;
    var v := Sort(values)[k];
    SortSorts(values, v);
    CountsInSorted(Sort(values), k);
  }

  // ---- Fresh samples ----

  function Fresh(samples: seq<Sample>, cutoff: int): seq<real> {
    if samples == [] then []
    else
      var last := samples[|samples| - 1];
      Fresh(samples[..|samples| - 1], cutoff) + if last.ts >= cutoff then [last.ms] else []
  }

  lemma {:induction false} FreshConcat(a: seq<Sample>, b: seq<Sample>, cutoff: int)
    ensures Fresh(a + b, cutoff) == Fresh(a, cutoff) + Fresh(b, cutoff)
  {
    if b == [] {
      assert a + b == a;
    } else {
      FreshConcat(a, b[..|b| - 1], cutoff);
      assert (a + b)[..|a + b| - 1] == a + b[..|b| - 1];
    }
  }

  /** A sample counts exactly when it is not older than the cutoff, in its place among the others. */
  lemma FreshAt(samples: seq<Sample>, cutoff: int, i: nat)
    requires i < |samples|
    ensures Fresh(samples, cutoff)
            == Fresh(samples[..i], cutoff) + (if samples[i].ts >= cutoff then [samples[i].ms] else []) + Fresh(samples[i + 1..], cutoff)
  {
    var before, one, after := samples[..i], [samples[i]], samples[i + 1..];
    assert samples == before + one + after && one[..0] == [];
    FreshConcat(before + one, after, cutoff);
    FreshConcat(before, one, cutoff);
  }

  /** The ring of samples: slots are overwritten oldest first once all are in use. */
  class WaitTimeTracker {
    const capacity: nat
    const windowMs: int
    const samples: array<Sample>
    var next: nat
    var size: nat
    /** Every valid sample so far. */
    ghost var recorded: seq<Sample>

    ghost predicate Shaped()
      reads this
    {
      && capacity >= 1 && samples.Length == capacity && next < capacity && size <= capacity
      && (size < capacity ==> next == size)
    }

    /** The ring holds exactly the last `capacity` valid samples. */
    ghost predicate Valid()
      reads this, samples
    {
      Shaped() && Window() == LastN(recorded, capacity)
    }

    /** The stored samples, oldest first. */
    ghost function Window(): seq<Sample>
      requires Shaped()
      reads this, samples
    {
      Ring(samples[..], next, size)
    }

    constructor (capacity: int, windowMs: int)
      ensures Valid() && recorded == [] && fresh(samples)
      ensures this.capacity == Max(1, capacity) && this.windowMs == Max(1, windowMs)
    {
      var c: nat := Max(1, capacity);
      this.capacity, this.windowMs, next, size := c, Max(1, windowMs), 0, 0;
      recorded := [];
      samples := new Sample[c](_ => Sample(0, 0.0));
    }

    /** A wait time that is not a number (None) or negative is ignored; any other is recorded. */
    method Record(waitMs: Option<real>, ts: int)
      requires Valid()
      modifies this, samples
      ensures Valid()
      ensures recorded == if waitMs.Some? && waitMs.value >= 0.0
                          then old(recorded) + [Sample(ts, waitMs.value)] else old(recorded)
    {
      if waitMs == None || waitMs.value < 0.0 { return; }
      hide Ring, LastN, NextSlot;
      var sample := Sample(ts, waitMs.value);
      ghost var before := samples[..];
      assert |before| == capacity;
      RingStep(recorded, before, next, size, sample);
      samples[next] := sample;
      assert samples[..] == before[next := sample];
      next := NextSlot(next, capacity);
      if size < capacity { size := size + 1; }
      recorded := recorded + [sample];
    }

    method FreshValues(cutoff: int) returns (values: seq<real>)
      requires Valid()
      ensures values == Fresh(samples[..size], cutoff)
    {
      values := [];
      for i := 0 to size
        invariant values == Fresh(samples[..i], cutoff)
      {
        assert samples[..i + 1][..i] == samples[..i];
        if samples[i].ts >= cutoff { values := values + [samples[i].ms]; }
      }
    }

    method At(values: seq<real>, percent: nat) returns (v: real)
      requires values != [] && 1 <= percent <= 100
      ensures NearestRank(values, percent, 1000.0 * v)
    {
      hide NearestRank, Sort;
      PickedByRank(values, percent);
      var index := Min(|values| - 1, Max(0, Rank(percent, |values|) - 1));
      v := Sort(values)[index] / 1000.0;
    }

    /** The percentiles, in seconds, of those of the last `capacity` samples that are fresh at this
        time, in ascending order. */
    method Percentiles(now: int) returns (p50: real, p95: real, p99: real)
      requires Valid()
      ensures var values := Fresh(LastN(recorded, capacity), now - windowMs);
              NearestRank(values, 50, 1000.0 * p50) && NearestRank(values, 95, 1000.0 * p95)
              && NearestRank(values, 99, 1000.0 * p99)
      ensures p50 <= p95 <= p99
    {
      hide NearestRank, Fresh, Rank, LastN;
      var values := FreshValues(now - windowMs);
      if values == [] {
        p50, p95, p99 := 0.0, 0.0, 0.0;
        NoValues(50);
        NoValues(95);
        NoValues(99);
      } else {
        p50 := At(values, 50);
        p95 := At(values, 95);
        p99 := At(values, 99);
      }
      PercentilesGrow(values, 50, 95, 1000.0 * p50, 1000.0 * p95);
      PercentilesGrow(values, 95, 99, 1000.0 * p95, 1000.0 * p99);
      if size == capacity {
        var a, b := samples[next..], samples[..next];
        assert samples[..size] == b + a;
        FreshConcat(a, b, now - windowMs);
        FreshConcat(b, a, now - windowMs);
        Reordered(Fresh(a, now - windowMs), Fresh(b, now - windowMs), 50, 1000.0 * p50);
        Reordered(Fresh(a, now - windowMs), Fresh(b, now - windowMs), 95, 1000.0 * p95);
        Reordered(Fresh(a, now - windowMs), Fresh(b, now - windowMs), 99, 1000.0 * p99);
      }
    }
  }

  lemma NoValues(percent: nat)
    ensures NearestRank([], percent, 0.0)
  {
  }
}
