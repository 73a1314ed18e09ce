/**
 Merging retained latency samples of several sources into one profile: an exact merge when nothing was dropped, and
 otherwise a weighted quantile walk. Weights are exact reals; `merge_profile_samples` computes them in `f64`.
 */
module Merge {
  import opened Common
  import opened Sorting

  const CAPACITY := 8192
  const EXACT_LIMIT := 65536

  /** One source: how many observations it saw and the samples, in microseconds, it kept. */
  datatype Series = Series(valid: nat, retained: seq<nat>)

  /** Microseconds to whole milliseconds, rounded up. */
  function CeilUsToMs(us: nat): (ms: nat)
    ensures us + 999 <= U64_MAX ==> ms * 1000 >= us && (ms == 0 || (ms - 1) * 1000 < us)
  {
    SaturatingAdd(us, 999) / 1000
  }

  lemma CeilIsMonotone(a: nat, b: nat)
    requires a <= b
    ensures CeilUsToMs(a) <= CeilUsToMs(b)
  {
  }

  datatype Weighted = Weighted(sample: nat, weight: real)

  predicate SampleLeq(a: Weighted, b: Weighted) {
    a.sample <= b.sample
  }

  // ---------------------------------------------------------------- weights

  function Cumulative(items: seq<Weighted>, k: nat): real
    requires k <= |items|
  {
    if k == 0 then 0.0 else Cumulative(items, k - 1) + items[k - 1].weight
  }

  predicate NonNegative(items: seq<Weighted>) {
    forall k :: 0 <= k < |items| ==> items[k].weight >= 0.0
  }

  lemma {:induction false} CumulativeGrows(items: seq<Weighted>, j: nat, k: nat)
    requires NonNegative(items) && j <= k <= |items|
    ensures 0.0 <= Cumulative(items, j) <= Cumulative(items, k)
    decreases k
  {
    if j < k {
      CumulativeGrows(items, j, k - 1);
    } else if k > 0 {
      CumulativeGrows(items, k - 1, k - 1);
    }
  }

  // ---------------------------------------------------------------- the walk

  function Times(a: real, b: real): real {
    a * b
  }

  lemma TimesGrows(a: real, b: real, n: real)
    requires n > 0.0
    ensures a <= b <==> Times(a, n) <= Times(b, n)
    ensures Times(a, n) == Times(n, a)
  {
  }

  lemma TimesNonNegative(a: real, b: real)
    requires a >= 0.0 && b >= 0.0
    ensures Times(a, b) >= 0.0 && Times(0.0, b) == 0.0
  {
  }

  /** The mass at which output `k` of `n` is taken. */
  function Target(k: nat, n: nat, total: real): real
    requires n > 0
  {
    Times(k as real + 0.5, total) / n as real
  }

  lemma TargetScaled(k: nat, n: nat, total: real)
    requires n > 0
    ensures Times(Target(k, n, total), n as real) == Times(k as real + 0.5, total)
  {
  }

  lemma TargetGrows(j: nat, k: nat, n: nat, total: real)
    requires n > 0 && j <= k && total > 0.0
    ensures Target(j, n, total) <= Target(k, n, total)
  {
    hide Times, Target;
    TargetScaled(j, n, total);
    TargetScaled(k, n, total);
    TimesGrows(j as real + 0.5, k as real + 0.5, total);
    TimesGrows(Target(j, n, total), Target(k, n, total), n as real);
  }

  lemma TargetInside(k: nat, n: nat, total: real)
    requires k < n && total > 0.0
    ensures 0.0 < Target(k, n, total) < total
  {
    hide Times, Target;
    TargetScaled(k, n, total);
    TimesGrows(n as real, k as real + 0.5, total);
    TimesGrows(total, Target(k, n, total), n as real);
    TimesGrows(k as real + 0.5, 0.0, total);
    TimesGrows(Target(k, n, total), 0.0, n as real);
    TimesNonNegative(0.0, total);
    TimesNonNegative(0.0, n as real);
  }

  /** Item `i` holds the mass at `target`. */
  predicate Holds(items: seq<Weighted>, target: real, i: nat) {
    i < |items| && Cumulative(items, i) < target <= Cumulative(items, i + 1)
  }

  /** Output `k` is taken from the item that holds its target. */
  ghost predicate QuantilePicks(items: seq<Weighted>, n: nat, picks: seq<nat>) {
    && n > 0 && |picks| <= n
    && (forall k :: 0 <= k < |picks| ==> Holds(items, Target(k, n, Cumulative(items, |items|)), picks[k]))
    && (forall j, k :: 0 <= j < k < |picks| ==> picks[j] <= picks[k])
  }

  function CountBelow(picks: seq<nat>, j: nat): nat {
    if picks == [] then 0 else CountBelow(picks[..|picks| - 1], j) + (if picks[|picks| - 1] < j then 1 else 0)
  }

  /** The picks below `j` are the first ones. */
  lemma {:induction false} CountIsPrefix(picks: seq<nat>, j: nat)
    requires forall i, k :: 0 <= i < k < |picks| ==> picks[i] <= picks[k]
    ensures CountBelow(picks, j) <= |picks|
    ensures forall k :: 0 <= k < |picks| ==> (picks[k] < j <==> k < CountBelow(picks, j))
  {
    if picks != [] {
      var n := |picks| - 1;
      CountIsPrefix(picks[..n], j);
      forall k | 0 <= k < |picks|
        ensures picks[k] < j <==> k < CountBelow(picks, j)
      {
        if k < n {
          assert picks[..n][k] == picks[k];
        }
      }
    }
  }

  /** The first output not taken from the prefix has its target beyond the prefix's mass; the last taken one within it. */
  lemma PrefixMass(items: seq<Weighted>, n: nat, picks: seq<nat>, j: nat)
    requires QuantilePicks(items, n, picks) && |picks| == n && NonNegative(items) && j <= |items|
    ensures var (m, total) := (CountBelow(picks, j), Cumulative(items, |items|));
            && m <= n
            && (m > 0 ==> Target(m - 1, n, total) <= Cumulative(items, j))
            && (m < n ==> Cumulative(items, j) < Target(m, n, total))
  {
    hide Target, Cumulative;
    var m, total := CountBelow(picks, j), Cumulative(items, |items|);
    CountIsPrefix(picks, j);
    if m > 0 {
      assert picks[m - 1] < j && Holds(items, Target(m - 1, n, total), picks[m - 1]);
      CumulativeGrows(items, picks[m - 1] + 1, j);
    }
    if m < n {
      assert picks[m] >= j && Holds(items, Target(m, n, total), picks[m]);
      CumulativeGrows(items, j, picks[m]);
    }
  }

  /** The prefix's share, scaled by the total mass, lies between the half-ranks around the count. */
  lemma RankScaled(items: seq<Weighted>, n: nat, picks: seq<nat>, j: nat)
    requires QuantilePicks(items, n, picks) && |picks| == n && NonNegative(items) && j <= |items|
    requires Cumulative(items, |items|) > 0.0
    ensures var (m, total) := (CountBelow(picks, j) as real, Cumulative(items, |items|));
            Times(m - 0.5, total) <= Times(n as real, Cumulative(items, j)) <= Times(m + 0.5, total)
  {
    hide Cumulative, NonNegative, Times, Target;
    var m, total, mass := CountBelow(picks, j), Cumulative(items, |items|), Cumulative(items, j);
    PrefixMass(items, n, picks, j);
    CumulativeGrows(items, j, |items|);
    TimesGrows(mass, total, n as real);
    if m > 0 {
      TargetScaled(m - 1, n, total);
      TimesGrows(Target(m - 1, n, total), mass, n as real);
      assert (m - 1) as real + 0.5 == m as real - 0.5;
    } else {
      TimesNonNegative(mass, n as real);
      TimesGrows(-0.5, 0.0, total);
      TimesNonNegative(0.0, total);
    }
    if m < n {
      TargetScaled(m, n, total);
      TimesGrows(mass, Target(m, n, total), n as real);
    } else {
      TimesGrows(n as real, m as real + 0.5, total);
      TimesGrows(total, total, n as real);
    }
  }

  /** The outputs taken from the first `j` samples differ from their proportional share of `n` by at most a half. */
  predicate HalfRank(items: seq<Weighted>, n: nat, picks: seq<nat>, j: nat) {
    && j <= |items| && Cumulative(items, |items|) > 0.0
    && -0.5 <= CountBelow(picks, j) as real - Times(n as real, Cumulative(items, j)) / Cumulative(items, |items|) <= 0.5
  }

  /** The outputs taken from any prefix of the samples are within half of the prefix's proportional share of them. */
  lemma RankError(items: seq<Weighted>, n: nat, picks: seq<nat>, j: nat)
    requires QuantilePicks(items, n, picks) && |picks| == n && NonNegative(items) && j <= |items|
    requires Cumulative(items, |items|) > 0.0
    ensures HalfRank(items, n, picks, j)
  {
    RankScaled(items, n, picks, j);
    hide Cumulative, QuantilePicks, NonNegative;
    Share(CountBelow(picks, j) as real, Times(n as real, Cumulative(items, j)), Cumulative(items, |items|));
  }

  lemma Share(m: real, w: real, total: real)
    requires total > 0.0 && Times(m - 0.5, total) <= w <= Times(m + 0.5, total)
    ensures -0.5 <= m - w / total <= 0.5
  {
    var x := w / total;
    assert Times(x, total) == w;
    TimesGrows(m - 0.5, x, total);
    TimesGrows(x, m + 0.5, total);
  }

  // ---------------------------------------------------------------- the samples of all sources

  function ItemsOf(s: Series): seq<Weighted> {
    if s.retained == [] then []
    else seq(|s.retained|, k requires 0 <= k < |s.retained| =>
               Weighted(s.retained[k], s.valid as real / |s.retained| as real))
  }

  function AllItems(series: seq<Series>): seq<Weighted> {
    if series == [] then [] else ItemsOf(series[0]) + AllItems(series[1..])
  }

  function WeightSum(items: seq<Weighted>): real {
    if items == [] then 0.0 else items[0].weight + WeightSum(items[1..])
  }

  lemma {:induction false} WeightSumAppend(a: seq<Weighted>, b: seq<Weighted>)
    ensures WeightSum(a + b) == WeightSum(a) + WeightSum(b)
  {
    if a == [] {
      assert a + b == b;
    } else {
      WeightSumAppend(a[1..], b);
      assert (a + b)[1..] == a[1..] + b;
    }
  }

  lemma {:induction false} CumulativeIsSum(items: seq<Weighted>, k: nat)
    requires k <= |items|
    ensures Cumulative(items, k) == WeightSum(items[..k])
  {
    if k > 0 {
      CumulativeIsSum(items, k - 1);
      assert items[..k] == items[..k - 1] + [items[k - 1]];
      WeightSumAppend(items[..k - 1], [items[k - 1]]);
      assert WeightSum([items[k - 1]]) == items[k - 1].weight + WeightSum([]);
    }
  }

  lemma {:induction false} EqualWeights(items: seq<Weighted>, w: real)
    requires forall k :: 0 <= k < |items| ==> items[k].weight == w
    ensures WeightSum(items) == Times(|items| as real, w)
  {
    if items != [] {
      EqualWeights(items[1..], w);
      assert Times(|items| as real, w) == w + Times(|items[1..]| as real, w);
    } else {
      TimesNonNegative(0.0, 0.0);
    }
  }

  function ValidTotal(series: seq<Series>): nat {
    if series == [] then 0 else series[0].valid + ValidTotal(series[1..])
  }

  /** Observations of the sources that kept any sample. */
  function SampledTotal(series: seq<Series>): nat {
    if series == [] then 0 else (if series[0].retained == [] then 0 else series[0].valid) + SampledTotal(series[1..])
  }

  predicate AllRetain(series: seq<Series>) {
    forall k :: 0 <= k < |series| ==> series[k].retained != []
  }

  lemma {:induction false} AllSampled(series: seq<Series>)
    requires AllRetain(series)
    ensures SampledTotal(series) == ValidTotal(series)
  {
    if series != [] {
      AllSampled(series[1..]);
    }
  }

  lemma SourceWeight(s: Series)
    ensures WeightSum(ItemsOf(s)) == (if s.retained == [] then 0 else s.valid) as real
    ensures NonNegative(ItemsOf(s))
  {
    if s.retained != [] {
      var w := s.valid as real / |s.retained| as real;
      assert w >= 0.0 && Times(|s.retained| as real, w) == s.valid as real;
      EqualWeights(ItemsOf(s), w);
    }
  }

  /** Each source that kept a sample carries as much weight as it has observations, however few samples it kept. */
  lemma {:induction false} WeightIsObservations(series: seq<Series>)
    ensures WeightSum(AllItems(series)) == SampledTotal(series) as real
    ensures AllRetain(series) ==> WeightSum(AllItems(series)) == ValidTotal(series) as real
  {
    hide ItemsOf, WeightSum;
    if series == [] {
      assert WeightSum([]) == 0.0 by {
        NoWeight();
      }
    } else {
      WeightIsObservations(series[1..]);
      WeightSumAppend(ItemsOf(series[0]), AllItems(series[1..]));
      SourceWeight(series[0]);
    }
    if AllRetain(series) {
      AllSampled(series);
    }
  }

  lemma NoWeight()
    ensures WeightSum([]) == 0.0
  {
  }

  lemma {:induction false} WeightsNotNegative(series: seq<Series>)
    ensures NonNegative(AllItems(series))
  {
    hide ItemsOf;
    if series != [] {
      SourceWeight(series[0]);
      WeightsNotNegative(series[1..]);
    }
  }

  lemma {:induction false} InsertWeight(x: Weighted, s: seq<Weighted>)
    ensures WeightSum(InsertBy(x, s, SampleLeq)) == x.weight + WeightSum(s)
  {
    if s != [] && !SampleLeq(x, s[0]) {
      InsertWeight(x, s[1..]);
      var r := InsertBy(x, s, SampleLeq);
      assert r[0] == s[0] && r[1..] == InsertBy(x, s[1..], SampleLeq);
    } else {
      assert ([x] + s)[1..] == s;
    }
  }

  lemma {:induction false} SortKeepsWeight(s: seq<Weighted>)
    ensures WeightSum(SortBy(s, SampleLeq)) == WeightSum(s)
  {
    if s != [] {
      SortKeepsWeight(s[1..]);
      InsertWeight(s[0], SortBy(s[1..], SampleLeq));
    }
  }

  /** The samples in ascending order with their weights. */
  function SortedItems(series: seq<Series>): seq<Weighted> {
    SortBy(AllItems(series), SampleLeq)
  }

  lemma SortedItemsFacts(series: seq<Series>)
    ensures var items := SortedItems(series);
            && (forall j, k :: 0 <= j < k < |items| ==> items[j].sample <= items[k].sample)
            && NonNegative(items)
            && Cumulative(items, |items|) == SampledTotal(series) as real
            && (AllItems(series) != [] ==> items != [])
  {
    var all, items := AllItems(series), SortedItems(series);
    assert Cumulative(items, |items|) == SampledTotal(series) as real by {
      hide AllItems, SampledTotal, SortBy, WeightSum, Cumulative;
      WeightIsObservations(series);
      SortKeepsWeight(all);
      CumulativeIsSum(items, |items|);
      assert items[..|items|] == items;
    }
    hide AllItems, SampledTotal, SortBy, Cumulative;
    WeightsNotNegative(series);
    SortByIsSorted(all, SampleLeq);
    SortByMembers(all, SampleLeq);
    assert all != [] ==> all[0] in items;
    forall k | 0 <= k < |items|
      ensures items[k].weight >= 0.0
    {
      assert items[k] in items;
    }
  }

  // ---------------------------------------------------------------- the merge

  /** Nothing was dropped anywhere, and everything fits. */
  predicate Complete(series: seq<Series>) {
    RetainedCount(series) <= EXACT_LIMIT && forall k :: 0 <= k < |series| ==> series[k].valid == |series[k].retained|
  }

  function RetainedCount(series: seq<Series>): nat {
    if series == [] then 0 else |series[0].retained| + RetainedCount(series[1..])
  }

  function AllSamples(series: seq<Series>): seq<nat> {
    if series == [] then [] else series[0].retained + AllSamples(series[1..])
  }

  lemma {:induction false} RetainedIsAll(series: seq<Series>)
    ensures RetainedCount(series) == |AllSamples(series)|
  {
    if series != [] {
      RetainedIsAll(series[1..]);
    }
  }

  function CeilAll(samples: seq<nat>): seq<nat> {
    seq(|samples|, k requires 0 <= k < |samples| => CeilUsToMs(samples[k]))
  }

  function OutputCount(series: seq<Series>): nat {
    Min(CAPACITY, Min(ValidTotal(series), U64_MAX))
  }

  /** With any weight, each output comes from the item that holds its target; without, all come from the first item. */
  ghost predicate Picked(items: seq<Weighted>, n: nat, picks: seq<nat>) {
    if Cumulative(items, |items|) > 0.0 then QuantilePicks(items, n, picks)
    else forall k :: 0 <= k < |picks| ==> picks[k] == 0
  }

  lemma PickedMore(items: seq<Weighted>, n: nat, picks: seq<nat>, index: nat)
    requires n > 0 && |picks| < n && Picked(items, n, picks) && forall k :: 0 <= k < |picks| ==> picks[k] <= index
    requires if Cumulative(items, |items|) > 0.0 then Holds(items, Target(|picks|, n, Cumulative(items, |items|)), index)
             else index == 0
    ensures Picked(items, n, picks + [index])
  {
    hide Holds, Target, Cumulative;
  }

  lemma NonePicked(items: seq<Weighted>, n: nat)
    requires n > 0
    ensures Picked(items, n, [])
  {
  }

  lemma NoTarget(k: nat, n: nat)
    requires n > 0
    ensures Target(k, n, 0.0) == 0.0
  {
  }

  /** The nested walk: for each output, advance to the item that holds its target. */
  method Walk(items: seq<Weighted>, n: nat) returns (output: seq<nat>, ghost picks: seq<nat>)
    requires items != [] && n > 0 && NonNegative(items)
    requires forall j, k :: 0 <= j < k < |items| ==> items[j].sample <= items[k].sample
    ensures |output| == |picks| == n && Picked(items, n, picks)
    ensures forall k :: 0 <= k < n ==> picks[k] < |items| && output[k] == CeilUsToMs(items[picks[k]].sample)
    ensures forall j, k :: 0 <= j < k < n ==> output[j] <= output[k]
  {
    hide Target, Times, Picked, CeilUsToMs;
    ghost var total := Cumulative(items, |items|);
    var whole := TotalWeight(items);
    CumulativeGrows(items, 1, |items|);
    output, picks := [], [];
    NonePicked(items, n);
    var index := 0;
    var cumulative := items[0].weight;
    for ordinal := 0 to n
      invariant index < |items| && cumulative == Cumulative(items, index + 1)
      invariant |output| == |picks| == ordinal && Picked(items, n, picks)
      invariant forall k :: 0 <= k < ordinal ==> picks[k] <= index && output[k] == CeilUsToMs(items[picks[k]].sample)
      invariant forall j, k :: 0 <= j < k < ordinal ==> picks[j] <= picks[k]
      invariant index == 0 || (total > 0.0 && ordinal > 0 && Cumulative(items, index) < Target(ordinal - 1, n, total))
    {
      var target := Target(ordinal, n, whole);
      if total > 0.0 {
        TargetInside(ordinal, n, total);
        if ordinal > 0 {
          TargetGrows(ordinal - 1, ordinal, n, total);
        }
      } else {
        NoTarget(ordinal, n);
      }
      while index + 1 < |items| && cumulative < target
        invariant index < |items| && cumulative == Cumulative(items, index + 1)
        invariant forall k :: 0 <= k < ordinal ==> picks[k] <= index
        invariant if total > 0.0 then Cumulative(items, index) < target else index == 0
        decreases |items| - index
      {
        index := index + 1;
        cumulative := cumulative + items[index].weight;
      }
      PickedMore(items, n, picks, index);
      output := output + [CeilUsToMs(items[index].sample)];
      picks := picks + [index];
    }
    forall j, k | 0 <= j < k < n
      ensures output[j] <= output[k]
    {
      CeilIsMonotone(items[picks[j]].sample, items[picks[k]].sample);
    }
  }

  method TotalWeight(items: seq<Weighted>) returns (total: real)
    ensures total == Cumulative(items, |items|)
  {
    total := 0.0;
    for k := 0 to |items|
      invariant total == Cumulative(items, k)
    {
      total := total + items[k].weight;
    }
  }

  /**
   The merged profile. If no source dropped a sample it is exactly the sorted samples, rounded up. Otherwise it is
   sorted, has the stated length, takes each output from the sample that holds its half-rank mass, and every prefix of
   the samples gets its proportional share of the outputs to within a half; if only sources without samples have
   observations, every output is the smallest sample. With outputs due there must be a sample to take them from.
   */
  method MergeProfileSamples(series: seq<Series>) returns (output: seq<nat>, ghost picks: seq<nat>)
    requires !Complete(series) && ValidTotal(series) > 0 ==> AllItems(series) != []
    ensures forall j, k :: 0 <= j < k < |output| ==> output[j] <= output[k]
    ensures |AllSamples(series)| <= 65536 && (forall k :: 0 <= k < |series| ==> series[k].valid == |series[k].retained|)
            ==> multiset(output) == multiset(CeilAll(AllSamples(series)))
    ensures !Complete(series) ==> |output| == |picks| == Min(8192, Min(ValidTotal(series), U64_MAX))
    ensures !Complete(series) && output != [] ==>
              var items := SortedItems(series);
              && (forall k :: 0 <= k < |output| ==> picks[k] < |items| && output[k] == CeilUsToMs(items[picks[k]].sample))
              && (SampledTotal(series) == 0 ==> forall k :: 0 <= k < |output| ==> picks[k] == 0)
              && (SampledTotal(series) > 0 ==>
                    && QuantilePicks(items, |output|, picks)
                    && forall j :: 0 <= j <= |items| ==> HalfRank(items, |output|, picks, j))
  {
    picks := [];
    RetainedIsAll(series);
    if series == [] {
      return [], [];
    }
    if Complete(series) {
      output := SortNats(CeilAll(AllSamples(series)));
      return;
    }
    var items := SortedItems(series);
    SortedItemsFacts(series);
    var n := OutputCount(series);
    if n == 0 {
      return [], [];
    }
    output, picks := Walk(items, n);
    if SampledTotal(series) > 0 {
      forall j | 0 <= j <= |items|
        ensures HalfRank(items, n, picks, j)
      {
        RankError(items, n, picks, j);
      }
    }
  }
}
