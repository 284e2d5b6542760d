/** `generate_sorter` (an argsort of the forecast times) and
    `sort_array_by_time_series` (fancy indexing with that sorter). */
module Sorting {

  /** The indices 0, 1, ..., n - 1. */
  function Range(n: nat): (r: seq<nat>)
    ensures |r| == n && forall i | 0 <= i < n :: r[i] == i
  {
    if n == 0 then [] else Range(n - 1) + [n - 1]
  }

  /** Every entry of s indexes times. */
  predicate Indexes(times: seq<int>, s: seq<nat>) {
    forall i | 0 <= i < |s| :: s[i] < |times|
  }

  /** s lists indices of times in non-decreasing order of their time. */
  predicate SortedBy(times: seq<int>, s: seq<nat>)
    requires Indexes(times, s)
  {
    forall i, j | 0 <= i < j < |s| :: times[s[i]] <= times[s[j]]
  }

  predicate NonDecreasing(xs: seq<int>) {
    forall i, j | 0 <= i < j < |xs| :: xs[i] <= xs[j]
  }

  /** The position in the sorted index list s before the first entry whose
      time is not smaller than that of index i. */
  function InsertPos(times: seq<int>, s: seq<nat>, i: nat): (p: nat)
    requires i < |times| && Indexes(times, s)
    ensures p <= |s|
    ensures forall k | 0 <= k < p :: times[s[k]] < times[i]
    ensures p < |s| ==> times[i] <= times[s[p]]
    decreases |s|
  {
    if s == [] || times[i] <= times[s[0]] then 0 else 1 + InsertPos(times, s[1..], i)
  }

  /** Inserts index i into the sorted index list s, keeping it sorted. */
  function Insert(times: seq<int>, s: seq<nat>, i: nat): (r: seq<nat>)
    requires i < |times| && Indexes(times, s) && SortedBy(times, s)
    ensures |r| == |s| + 1
    ensures Indexes(times, r) && SortedBy(times, r)
  {
    var p := InsertPos(times, s, i);
    assert s == s[..p] + s[p..];
    InsertSorted(times, s, i, p);
    s[..p] + [i] + s[p..]
  }

  lemma InsertSorted(times: seq<int>, s: seq<nat>, i: nat, p: nat)
    requires i < |times| && Indexes(times, s) && SortedBy(times, s) && p <= |s|
    requires forall k | 0 <= k < p :: times[s[k]] < times[i]
    requires p < |s| ==> times[i] <= times[s[p]]
    ensures Indexes(times, s[..p] + [i] + s[p..]) && SortedBy(times, s[..p] + [i] + s[p..])
  {
    var r := s[..p] + [i] + s[p..];
    forall a, b | 0 <= a < b < |r|
      ensures times[r[a]] <= times[r[b]]
    {
      if b < p {
        assert r[a] == s[a] && r[b] == s[b];
      } else if b == p {
        assert r[a] == s[a] && r[b] == i;
      } else if a < p {
        assert r[a] == s[a] && r[b] == s[b - 1];
      } else if a == p {
        assert r[a] == i && r[b] == s[b - 1];
      } else {
        assert r[a] == s[a - 1] && r[b] == s[b - 1];
      }
    }
  }

  /** An argsort of times[..n]. */
  function SorterUpTo(times: seq<int>, n: nat): (r: seq<nat>)
    requires n <= |times|
    ensures |r| == n
    ensures Indexes(times, r) && SortedBy(times, r)
  {
    if n == 0 then [] else Insert(times, SorterUpTo(times, n - 1), n - 1)
  }

  /** Inserting adds i to the index list and takes nothing away. */
  lemma InsertAdds(times: seq<int>, s: seq<nat>, i: nat)
    requires i < |times| && Indexes(times, s) && SortedBy(times, s)
    ensures multiset(Insert(times, s, i)) == multiset(s) + multiset{i}
  {
    var p := InsertPos(times, s, i);
    assert s == s[..p] + s[p..];
  }

  /** The sorter of times[..n] lists each of the indices 0 .. n - 1 once. */
  lemma {:induction false} SorterUpToRange(times: seq<int>, n: nat)
    requires n <= |times|
    ensures multiset(SorterUpTo(times, n)) == multiset(Range(n))
  {
    if n > 0 {
      var prev := SorterUpTo(times, n - 1);
      var one: multiset<nat> := multiset{n - 1};
      calc {
        multiset(SorterUpTo(times, n));
        multiset(Insert(times, prev, n - 1));
        { InsertAdds(times, prev, n - 1); }
        multiset(prev) + one;
        { SorterUpToRange(times, n - 1); }
        multiset(Range(n - 1)) + one;
        { assert Range(n) == Range(n - 1) + [n - 1]; }
        multiset(Range(n));
      }
    }
  }

  /** `times.argsort()`: a permutation of the indices of times that orders
      them by time.  Which of several equal times comes first is not part of
      the contract (numpy's default sort is not stable). */
  function GenerateSorter(times: seq<int>): (sorter: seq<nat>)
    ensures |sorter| == |times|
    ensures Indexes(times, sorter) && SortedBy(times, sorter)
  {
    SorterUpTo(times, |times|)
  }

  /** The sorter is a permutation of the indices of times. */
  lemma SorterIsPermutation(times: seq<int>)
    ensures multiset(GenerateSorter(times)) == multiset(Range(|times|))
  {
    SorterUpToRange(times, |times|);
  }

  /** `data[sorter]`. */
  function SortArrayByTimeSeries<T>(data: seq<T>, sorter: seq<nat>): (r: seq<T>)
    requires forall i | 0 <= i < |sorter| :: sorter[i] < |data|
    ensures |r| == |sorter| && forall i | 0 <= i < |sorter| :: r[i] == data[sorter[i]]
  {
    seq(|sorter|, i requires 0 <= i < |sorter| => data[sorter[i]])
  }

  /** Sorting the times by their own sorter leaves them non-decreasing. */
  lemma SortedTimes(times: seq<int>)
    ensures NonDecreasing(SortArrayByTimeSeries(times, GenerateSorter(times)))
  {
    var s := GenerateSorter(times);
    var r := SortArrayByTimeSeries(times, s);
    forall i, j | 0 <= i < j < |r|
      ensures r[i] <= r[j]
    {
      assert r[i] == times[s[i]] && r[j] == times[s[j]];
    }
  }

  /** Applying an index list with i inserted at position p inserts data[i]
      at position p of the result. */
  lemma ApplyInsert<T>(data: seq<T>, s: seq<nat>, i: nat, p: nat)
    requires i < |data| && p <= |s| && forall k | 0 <= k < |s| :: s[k] < |data|
    ensures SortArrayByTimeSeries(data, s)
         == SortArrayByTimeSeries(data, s[..p]) + SortArrayByTimeSeries(data, s[p..])
    ensures SortArrayByTimeSeries(data, s[..p] + [i] + s[p..])
         == SortArrayByTimeSeries(data, s[..p]) + [data[i]] + SortArrayByTimeSeries(data, s[p..])
  {
  }

  lemma PermuteInsert<T>(data: seq<T>, times: seq<int>, s: seq<nat>, i: nat)
    requires |data| == |times| && i < |times| && Indexes(times, s) && SortedBy(times, s)
    ensures multiset(SortArrayByTimeSeries(data, Insert(times, s, i)))
         == multiset(SortArrayByTimeSeries(data, s)) + multiset{data[i]}
  {
    var p := InsertPos(times, s, i);
    assert Insert(times, s, i) == s[..p] + [i] + s[p..];
    ApplyInsert(data, s, i, p);
    var left := SortArrayByTimeSeries(data, s[..p]);
    var right := SortArrayByTimeSeries(data, s[p..]);
    assert multiset(left + [data[i]] + right) == multiset(left) + multiset{data[i]} + multiset(right);
  }

  lemma PrefixSnoc<T>(xs: seq<T>, n: nat)
    requires 0 < n <= |xs|
    ensures multiset(xs[..n]) == multiset(xs[..n - 1]) + multiset{xs[n - 1]}
  {
    assert xs[..n] == xs[..n - 1] + [xs[n - 1]];
  }

  /** Sorting one more time adds its datum to what the sorter picks. */
  lemma PermuteStep<T>(data: seq<T>, times: seq<int>, n: nat)
    requires |data| == |times| && 0 < n <= |times|
    ensures multiset(SortArrayByTimeSeries(data, SorterUpTo(times, n)))
         == multiset(SortArrayByTimeSeries(data, SorterUpTo(times, n - 1))) + multiset{data[n - 1]}
  {
    var prev := SorterUpTo(times, n - 1);
    assert SorterUpTo(times, n) == Insert(times, prev, n - 1);
    PermuteInsert(data, times, prev, n - 1);
  }

  lemma {:induction false} PermuteUpTo<T>(data: seq<T>, times: seq<int>, n: nat)
    requires |data| == |times| && n <= |times|
    ensures multiset(SortArrayByTimeSeries(data, SorterUpTo(times, n))) == multiset(data[..n])
  {
    if n > 0 {
      PermuteUpTo(data, times, n - 1);
      PermuteStep(data, times, n);
      PrefixSnoc(data, n);
    }
  }

  /** Applying the sorter of times to a list of the same length permutes it:
      nothing is lost and nothing is duplicated. */
  lemma SorterPermutes<T>(data: seq<T>, times: seq<int>)
    requires |data| == |times|
    ensures multiset(SortArrayByTimeSeries(data, GenerateSorter(times))) == multiset(data)
  {
    PermuteUpTo(data, times, |times|);
    assert data[..|times|] == data;
  }
}
