/**
 Empirical latency profiles: the seeded quantile sampler and the dominance check that decides
 whether a stress profile is at least as slow as a baseline.
 */
module Latency {
  import opened Common
  import opened Sorting

  const WORD: nat := 0x1_0000_0000_0000_0000

  type Word = r: nat | r < WORD

  const MAX_LATENCY_MS: nat := 3_600_000
  const MAX_RULES: nat := 4_096
  const MAX_SAMPLES_PER_RULE: nat := 65_536
  const MAX_TOTAL_SAMPLES: nat := 1_000_000

  datatype Class =
    | MarketDepth
    | HistoricalTrade
    | ReferenceData
    | MatchingNew
    | MatchingCancel
    | OrderUpdate
    | OrderFill

  function StableTag(c: Class): bv8 {
    match c
    case MarketDepth => 1
    case HistoricalTrade => 2
    case ReferenceData => 3
    case MatchingNew => 4
    case MatchingCancel => 5
    case OrderUpdate => 6
    case OrderFill => 7
  }

  /** A symbol is its UTF-8 bytes. */
  type Symbol = seq<bv8>

  datatype Rule = Rule(kind: Class, symbol: Option<Symbol>, samples: seq<nat>)

  /** The latency part of an execution configuration. */
  datatype Config = Config(
    seed: Word,
    marketDataMs: nat,
    orderEntryMs: nat,
    cancelMs: nat,
    orderUpdateMs: nat,
    fillAccountMs: nat,
    rules: seq<Rule>)

  // ---------------------------------------------------------------- validation

  predicate PrintableSymbol(s: Symbol) {
    1 <= |s| <= 128 && forall i :: 0 <= i < |s| ==> 0x21 <= s[i] <= 0x7e
  }

  function TotalSamples(rules: seq<Rule>): nat {
    if rules == [] then 0 else |rules[0].samples| + TotalSamples(rules[1..])
  }

  predicate ValidProfile(rules: seq<Rule>) {
    && |rules| <= MAX_RULES
    && (forall i :: 0 <= i < |rules| ==> rules[i].symbol.Some? ==> PrintableSymbol(rules[i].symbol.value))
    && (forall i, j :: 0 <= i < j < |rules| ==>
          rules[i].kind != rules[j].kind || rules[i].symbol != rules[j].symbol)
    && (forall i :: 0 <= i < |rules| ==> 1 <= |rules[i].samples| <= MAX_SAMPLES_PER_RULE)
    && (forall i, k :: 0 <= i < |rules| && 0 <= k < |rules[i].samples| ==>
          rules[i].samples[k] <= MAX_LATENCY_MS)
    && TotalSamples(rules) <= MAX_TOTAL_SAMPLES
  }

  predicate ValidConfig(c: Config) {
    && c.marketDataMs <= MAX_LATENCY_MS
    && c.orderEntryMs <= MAX_LATENCY_MS
    && c.cancelMs <= MAX_LATENCY_MS
    && c.orderUpdateMs <= MAX_LATENCY_MS
    && c.fillAccountMs <= MAX_LATENCY_MS
    && ValidProfile(c.rules)
  }

  // ---------------------------------------------------------------- effective samples

  function LegacyLatencyMs(c: Config, kind: Class): nat {
    match kind
    case MarketDepth => c.marketDataMs
    case HistoricalTrade => c.marketDataMs
    case ReferenceData => c.marketDataMs
    case MatchingNew => c.orderEntryMs
    case MatchingCancel => c.cancelMs
    case OrderUpdate => c.orderUpdateMs
    case OrderFill => c.fillAccountMs
  }

  /** The first rule for exactly this class and symbol. */
  function FindRule(rules: seq<Rule>, kind: Class, symbol: Option<Symbol>): (r: Option<Rule>)
    ensures r.Some? ==> r.value in rules && r.value.kind == kind && r.value.symbol == symbol
    ensures r.None? ==> forall x :: x in rules ==> x.kind != kind || x.symbol != symbol
  {
    if rules == [] then None
    else if rules[0].kind == kind && rules[0].symbol == symbol then Some(rules[0])
    else FindRule(rules[1..], kind, symbol)
  }

  /** Sorted samples governing a class and symbol: specific rule, else generic rule, else legacy constant. */
  function EffectiveSamples(c: Config, kind: Class, symbol: Option<Symbol>): seq<nat> {
    var specific := if symbol.Some? then FindRule(c.rules, kind, symbol) else None;
    var generic := FindRule(c.rules, kind, None);
    var chosen := if specific.Some? then specific else generic;
    SortNats(if chosen.Some? then chosen.value.samples else [LegacyLatencyMs(c, kind)])
  }

  // ---------------------------------------------------------------- quantile index

  /** The 64-bit word `r` scaled to an index below `n`, as a 128-bit product shifted right by 64. */
  function QuantileIndex(r: nat, n: nat): (i: nat)
    requires r < WORD && n > 0
    ensures i < n
    ensures i * WORD <= r * n < (i + 1) * WORD
  {
    ScaledBelow(r, n);
    r * n / WORD
  }

  lemma ScaledBelow(r: nat, n: nat)
    requires r < WORD && n > 0
    ensures r * n < WORD * n
  {
  }

  function LittleEndian(word: bv64): (bytes: seq<bv8>)
    ensures |bytes| == 8
  {
    [(word & 0xff) as bv8, ((word >> 8) & 0xff) as bv8, ((word >> 16) & 0xff) as bv8,
     ((word >> 24) & 0xff) as bv8, ((word >> 32) & 0xff) as bv8, ((word >> 40) & 0xff) as bv8,
     ((word >> 48) & 0xff) as bv8, ((word >> 56) & 0xff) as bv8]
  }

  function FnvRound(hash: bv64, byte: bv8): bv64 {
    (hash ^ (byte as bv64)) * 0x0000_0100_0000_01b3
  }

  /** FNV-1a over the bytes, newest byte last. */
  function Fnv(bytes: seq<bv8>): bv64 {
    if bytes == [] then 0xcbf2_9ce4_8422_2325
    else FnvRound(Fnv(bytes[..|bytes| - 1]), bytes[|bytes| - 1])
  }

  lemma FnvExtends(bytes: seq<bv8>, i: nat)
    requires i < |bytes|
    ensures Fnv(bytes[..i + 1]) == FnvRound(Fnv(bytes[..i]), bytes[i])
  {
    assert bytes[..i + 1][..i] == bytes[..i];
  }

  function SplitMix(word: bv64): bv64 {
    var a := word + 0x9e37_79b9_7f4a_7c15;
    var b := (a ^ (a >> 30)) * 0xbf58_476d_1ce4_e5b9;
    var c := (b ^ (b >> 27)) * 0x94d0_49bb_1331_11eb;
    c ^ (c >> 31)
  }

  function DrawBytes(seed: bv64, kind: Class, symbol: Symbol, ordinal: bv64): seq<bv8> {
    LittleEndian(seed) + [StableTag(kind)] + symbol + LittleEndian(ordinal)
  }

  function Mix(seed: bv64, kind: Class, symbol: Symbol, ordinal: bv64): bv64 {
    SplitMix(Fnv(DrawBytes(seed, kind, symbol, ordinal)))
  }

  function ToBits(w: Word): bv64 {
    w as bv64
  }

  function FromBits(bits: bv64): Word {
    bits as nat
  }

  function DrawWord(seed: Word, kind: Class, symbol: Symbol, ordinal: Word): Word {
    FromBits(Mix(ToBits(seed), kind, symbol, ToBits(ordinal)))
  }

  method HashBytes(bytes: seq<bv8>) returns (hash: bv64)
    ensures hash == Fnv(bytes)
  {
    hash := 0xcbf2_9ce4_8422_2325;
    for i := 0 to |bytes|
      invariant hash == Fnv(bytes[..i])
    {
      FnvExtends(bytes, i);
      hash := FnvRound(hash, bytes[i]);
    }
    assert bytes[..|bytes|] == bytes;
  }

  method DeterministicQuantileIndex(seed: Word, kind: Class, symbol: Symbol, ordinal: Word, sampleCount: nat)
    returns (index: nat)
    requires sampleCount > 0
    ensures index == QuantileIndex(DrawWord(seed, kind, symbol, ordinal), sampleCount)
  {
    if sampleCount <= 1 {
      return 0;
    }
    var hash := HashBytes(DrawBytes(ToBits(seed), kind, symbol, ToBits(ordinal)));
    index := QuantileIndex(FromBits(SplitMix(hash)), sampleCount);
  }

  // ---------------------------------------------------------------- dominance check

  ghost predicate Ascending(s: seq<nat>) {
    forall i, j :: 0 <= i < j < |s| ==> s[i] <= s[j]
  }

  /** Length of the leading run of samples at most `value`; on an ascending list, the number of such samples. */
  function PartitionPoint(s: seq<nat>, value: nat): (k: nat)
    ensures k <= |s|
    ensures forall i :: 0 <= i < k ==> s[i] <= value
    ensures k < |s| ==> s[k] > value
  {
    if s == [] || s[0] > value then 0 else 1 + PartitionPoint(s[1..], value)
  }

  function SaturatingMul(a: nat, b: nat): nat {
    Min(a * b, U64_MAX)
  }

  predicate CountsOrdered(stress: seq<nat>, baseline: seq<nat>, value: nat) {
    SaturatingMul(PartitionPoint(stress, value), |baseline|)
      <= SaturatingMul(PartitionPoint(baseline, value), |stress|)
  }

  /** The finite check over the merged sample values and the largest word. */
  predicate FirstOrderNoLess(stress: seq<nat>, baseline: seq<nat>) {
    && stress != []
    && baseline != []
    && var values := (set v | v in stress) + (set v | v in baseline) + {U64_MAX};
       forall value | value in values :: CountsOrdered(stress, baseline, value)
  }

  /** The sample that the word `r` selects. */
  function Quantile(s: seq<nat>, r: nat): nat
    requires s != [] && r < WORD
  {
    s[QuantileIndex(r, |s|)]
  }

  /** Every word selects a stress sample no smaller than the baseline sample it selects. */
  ghost predicate QuantileDominates(stress: seq<nat>, baseline: seq<nat>)
    requires stress != [] && baseline != []
  {
    forall r: nat :: r < WORD ==> Quantile(stress, r) >= Quantile(baseline, r)
  }

  ghost predicate SampleList(s: seq<nat>) {
    s != [] && |s| <= MAX_SAMPLES_PER_RULE && Ascending(s)
  }

  lemma MulMonotone(a: nat, b: nat, c: nat)
    requires a <= b
    ensures a * c <= b * c
  {
  }

  lemma NoSaturation(a: nat, b: nat)
    requires a <= MAX_SAMPLES_PER_RULE && b <= MAX_SAMPLES_PER_RULE
    ensures a * b <= 0x1_0000_0000
    ensures SaturatingMul(a, b) == a * b
  {
    MulMonotone(a, 65536, b);
    MulMonotone(b, 65536, 65536);
  }

  /** Two indexes selected by one word: their rank intervals overlap. */
  lemma RanksOverlap(r: nat, n: nat, m: nat)
    requires r < WORD && n > 0 && m > 0
    ensures QuantileIndex(r, m) * n < (QuantileIndex(r, n) + 1) * m
  {
    var i, j := QuantileIndex(r, n), QuantileIndex(r, m);
    calc {
      j * n * WORD;
    ==
      (j * WORD) * n;
    <=  { MulMonotone(j * WORD, r * m, n); }
      (r * m) * n;
    ==
      (r * n) * m;
    <   { assert r * n < (i + 1) * WORD; StrictMul(r * n, (i + 1) * WORD, m); }
      ((i + 1) * WORD) * m;
    ==
      (i + 1) * m * WORD;
    }
  }

  lemma StrictMul(a: nat, b: nat, c: nat)
    requires a < b && c > 0
    ensures a * c < b * c
  {
  }

  lemma CeilDivision(a: nat, m: nat)
    requires m > 0
    ensures a <= (a + m - 1) / m * m < a + m
  {
    var q := (a + m - 1) / m;
    assert a + m - 1 == q * m + (a + m - 1) % m;
  }

  /** The least word whose product with `m` reaches rank `cb`. */
  lemma LeastWordAtRank(cb: nat, m: nat) returns (r: nat)
    requires cb < m <= MAX_SAMPLES_PER_RULE
    ensures r < WORD
    ensures r * m < cb * WORD + m
    ensures cb <= QuantileIndex(r, m)
  {
    r := (cb * WORD + m - 1) / m;
    CeilDivision(cb * WORD, m);
    if r >= WORD {
      MulMonotone(WORD, r, m);
    }
  }

  lemma CrossMultiply(x: nat, r: nat, n: nat, y: nat, m: nat)
    requires x <= r * n && r * m < y && n > 0
    ensures x * m < y * n
  {
    MulMonotone(x, r * n, m);
    StrictMul(r * m, y, n);
    assert (r * n) * m == (r * m) * n;
  }

  lemma RankProduct(i: nat, w: nat, r: nat, n: nat, cb: nat, m: nat)
    requires i * w <= r * n && r * m < cb * w + m && n > 0
    ensures (i * m) * w < (cb * n) * w + m * n
  {
    CrossMultiply(i * w, r, n, cb * w + m, m);
    assert (cb * w + m) * n == (cb * w) * n + m * n;
    assert (cb * w) * n == (cb * n) * w;
    assert (i * m) * w == (i * w) * m;
  }

  lemma ProductBelow(i: nat, m: nat, c: nat, p: nat)
    requires (i * m) * WORD < c * WORD + p && p <= WORD
    ensures i * m < c + 1
  {
  }

  lemma RankStaysBelow(r: nat, cs: nat, n: nat, cb: nat, m: nat)
    requires 0 < n <= MAX_SAMPLES_PER_RULE && 0 < m <= MAX_SAMPLES_PER_RULE
    requires r < WORD && r * m < cb * WORD + m
    requires cb * n + 1 <= cs * m
    ensures QuantileIndex(r, n) < cs
  {
    var i := QuantileIndex(r, n);
    RankProduct(i, WORD, r, n, cb, m);
    NoSaturation(m, n);
    ProductBelow(i, m, cb * n, m * n);
    if cs <= i {
      MulMonotone(cs, i, m);
    }
  }

  /** If the counts disagree at some value, a word between the two ranks separates the samples. */
  lemma SeparatingWord(cs: nat, n: nat, cb: nat, m: nat) returns (r: nat)
    requires 0 < n <= MAX_SAMPLES_PER_RULE && 0 < m <= MAX_SAMPLES_PER_RULE
    requires cs <= n && cb * n < cs * m
    ensures r < WORD
    ensures QuantileIndex(r, n) < cs && cb <= QuantileIndex(r, m)
  {
    if cb >= m {
      MulMonotone(m, cb, n);
      MulMonotone(cs, n, m);
    }
    r := LeastWordAtRank(cb, m);
    RankStaysBelow(r, cs, n, cb, m);
  }

  lemma CountsSeparate(stress: seq<nat>, baseline: seq<nat>, value: nat) returns (r: nat)
    requires SampleList(stress) && SampleList(baseline)
    requires !CountsOrdered(stress, baseline, value)
    ensures r < WORD && Quantile(stress, r) < Quantile(baseline, r)
  {
    var cs, cb := PartitionPoint(stress, value), PartitionPoint(baseline, value);
    NoSaturation(cs, |baseline|);
    NoSaturation(cb, |stress|);
    r := SeparatingWord(cs, |stress|, cb, |baseline|);
    assert Quantile(stress, r) <= value < baseline[cb];
  }

  /** The finite check is exact: it accepts just when every 64-bit word draws dominated samples. */
  lemma DominanceCheckIsExact(stress: seq<nat>, baseline: seq<nat>)
    requires SampleList(stress) && SampleList(baseline)
    ensures FirstOrderNoLess(stress, baseline) <==> QuantileDominates(stress, baseline)
  {
    if FirstOrderNoLess(stress, baseline) {
      forall r: nat | r < WORD ensures Quantile(stress, r) >= Quantile(baseline, r) {
        CheckedDrawDominates(stress, baseline, r);
      }
    }
    if QuantileDominates(stress, baseline) {
      forall value: nat ensures CountsOrdered(stress, baseline, value) {
        if !CountsOrdered(stress, baseline, value) {
          var r := CountsSeparate(stress, baseline, value);
        }
      }
    }
  }

  lemma CheckedDrawDominates(stress: seq<nat>, baseline: seq<nat>, r: nat)
    requires SampleList(stress) && SampleList(baseline) && r < WORD
    requires FirstOrderNoLess(stress, baseline)
    ensures Quantile(stress, r) >= Quantile(baseline, r)
  {
    var n, m := |stress|, |baseline|;
    var i, j := QuantileIndex(r, n), QuantileIndex(r, m);
    if stress[i] < baseline[j] {
      var cs, cb := PartitionPoint(stress, stress[i]), PartitionPoint(baseline, stress[i]);
      assert CountsOrdered(stress, baseline, stress[i]);
      NoSaturation(cs, m);
      NoSaturation(cb, n);
      assert i + 1 <= cs && cb <= j;
      MulMonotone(i + 1, cs, m);
      MulMonotone(cb, j, n);
      RanksOverlap(r, n, m);
    }
  }

  lemma DominanceReflexive(s: seq<nat>)
    requires SampleList(s)
    ensures FirstOrderNoLess(s, s)
  {
    DominanceCheckIsExact(s, s);
  }

  lemma DominanceTransitive(a: seq<nat>, b: seq<nat>, c: seq<nat>)
    requires SampleList(a) && SampleList(b) && SampleList(c)
    requires FirstOrderNoLess(a, b) && FirstOrderNoLess(b, c)
    ensures FirstOrderNoLess(a, c)
  {
    DominanceCheckIsExact(a, b);
    DominanceCheckIsExact(b, c);
    forall r: nat | r < WORD ensures Quantile(a, r) >= Quantile(c, r) {
      assert Quantile(a, r) >= Quantile(b, r) >= Quantile(c, r);
    }
    DominanceCheckIsExact(a, c);
  }

  // ---------------------------------------------------------------- stress acceptance

  function NamedSymbols(rules: seq<Rule>): set<Symbol> {
    set r | r in rules && r.symbol.Some? :: r.symbol.value
  }

  /** The dominance check of one class: without a symbol, and for every symbol that either profile names. */
  predicate ClassNoLess(stress: Config, baseline: Config, kind: Class) {
    && FirstOrderNoLess(EffectiveSamples(stress, kind, None), EffectiveSamples(baseline, kind, None))
    && (forall symbol | symbol in NamedSymbols(stress.rules + baseline.rules) ::
          FirstOrderNoLess(EffectiveSamples(stress, kind, Some(symbol)),
                           EffectiveSamples(baseline, kind, Some(symbol))))
  }

  /** The acceptance test a stress configuration must pass against a baseline. */
  predicate LatencyNoLessConservative(stress: Config, baseline: Config) {
    stress.seed == baseline.seed && forall kind: Class :: ClassNoLess(stress, baseline, kind)
  }

  lemma EffectiveSamplesWellFormed(c: Config, kind: Class, symbol: Option<Symbol>)
    requires ValidConfig(c)
    ensures SampleList(EffectiveSamples(c, kind, symbol))
  {
  }

  /** A symbol that no rule names is governed by the generic samples. */
  lemma UnnamedSymbolIsGeneric(c: Config, kind: Class, symbol: Symbol)
    requires symbol !in NamedSymbols(c.rules)
    ensures EffectiveSamples(c, kind, Some(symbol)) == EffectiveSamples(c, kind, None)
  {
    var found := FindRule(c.rules, kind, Some(symbol));
    assert found.None?;
  }

  /** An accepted stress dominates on every symbol, whether or not a rule names it. */
  lemma AcceptedStressDominates(stress: Config, baseline: Config, kind: Class, symbol: Symbol)
    requires LatencyNoLessConservative(stress, baseline)
    ensures FirstOrderNoLess(EffectiveSamples(stress, kind, Some(symbol)),
                             EffectiveSamples(baseline, kind, Some(symbol)))
  {
    assert ClassNoLess(stress, baseline, kind);
    if symbol !in NamedSymbols(stress.rules + baseline.rules) {
      assert forall r :: r in stress.rules || r in baseline.rules ==> r in stress.rules + baseline.rules;
      UnnamedSymbolIsGeneric(stress, kind, symbol);
      UnnamedSymbolIsGeneric(baseline, kind, symbol);
    }
  }

  /** The samples of a class, for a symbol or without one, are valid in both and pointwise no less in the stress. */
  ghost predicate PointwiseNoLess(stress: Config, baseline: Config, kind: Class, symbol: Option<Symbol>) {
    var (a, b) := (EffectiveSamples(stress, kind, symbol), EffectiveSamples(baseline, kind, symbol));
    a != [] && b != [] && QuantileDominates(a, b)
  }

  lemma CheckedIffPointwise(stress: Config, baseline: Config, kind: Class, symbol: Option<Symbol>)
    requires ValidConfig(stress) && ValidConfig(baseline)
    ensures FirstOrderNoLess(EffectiveSamples(stress, kind, symbol), EffectiveSamples(baseline, kind, symbol))
            <==> PointwiseNoLess(stress, baseline, kind, symbol)
  {
    EffectiveSamplesWellFormed(stress, kind, symbol);
    EffectiveSamplesWellFormed(baseline, kind, symbol);
    hide EffectiveSamples, QuantileDominates, FirstOrderNoLess;
    DominanceCheckIsExact(EffectiveSamples(stress, kind, symbol), EffectiveSamples(baseline, kind, symbol));
  }

  /** A stress is accepted exactly when seeds agree and it is pointwise no less for every class and symbol. */
  lemma AcceptedIffDominates(stress: Config, baseline: Config)
    requires ValidConfig(stress) && ValidConfig(baseline)
    ensures LatencyNoLessConservative(stress, baseline) <==>
            stress.seed == baseline.seed && forall kind, symbol :: PointwiseNoLess(stress, baseline, kind, symbol)
  {
    hide EffectiveSamples, FirstOrderNoLess, PointwiseNoLess, ValidConfig;
    forall kind, symbol
      ensures FirstOrderNoLess(EffectiveSamples(stress, kind, symbol), EffectiveSamples(baseline, kind, symbol))
              <==> PointwiseNoLess(stress, baseline, kind, symbol)
    {
      CheckedIffPointwise(stress, baseline, kind, symbol);
    }
    if LatencyNoLessConservative(stress, baseline) {
      forall kind, symbol
        ensures PointwiseNoLess(stress, baseline, kind, symbol)
      {
        assert ClassNoLess(stress, baseline, kind);
        if symbol.Some? {
          AcceptedStressDominates(stress, baseline, kind, symbol.value);
        }
      }
    }
  }

  // ---------------------------------------------------------------- sampler

  type Key = (Class, Symbol)

  datatype Usage = Usage(samples: nat, totalMs: nat, minimumMs: Option<nat>, maximumMs: nat)

  const NoUsage := Usage(0, 0, None, 0)

  function Record(u: Usage, latencyMs: nat): Usage {
    Usage(
      SaturatingAdd(u.samples, 1),
      SaturatingAdd(u.totalMs, latencyMs),
      Some(if u.minimumMs.None? then latencyMs else Min(u.minimumMs.value, latencyMs)),
      Max(u.maximumMs, latencyMs))
  }

  /** The reported mean; a key that was never drawn reports zero. */
  function MeanMs(u: Usage): real {
    if u.samples == 0 then 0.0 else u.totalMs as real / u.samples as real
  }

  /** The ordinal reached after `n` draws of one key: the count, saturating at the largest word. */
  function OrdinalAfter(n: nat): Word {
    Min(n, U64_MAX)
  }

  /** Any mixing of seed, class, symbol and ordinal into a 64-bit word. */
  type Hash = (Word, Class, Symbol, Word) -> Word

  datatype Tables = Tables(
    hash: Hash,
    seed: Word,
    legacy: map<Class, nat>,
    rules: map<(Class, Option<Symbol>), seq<nat>>)

  datatype Counters = Counters(ordinals: map<Key, Word>, usage: map<Key, Usage>)

  const Fresh := Counters(map[], map[])

  function RuleTable(rules: seq<Rule>): map<(Class, Option<Symbol>), seq<nat>> {
    if rules == [] then map[]
    else
      var last := rules[|rules| - 1];
      RuleTable(rules[..|rules| - 1])[(last.kind, last.symbol) := SortNats(last.samples)]
  }

  function LegacyTable(c: Config): map<Class, nat> {
    map kind: Class | true :: LegacyLatencyMs(c, kind)
  }

  function TablesOf(hash: Hash, c: Config): Tables {
    Tables(hash, c.seed, LegacyTable(c), RuleTable(c.rules))
  }

  predicate NonEmptyRules(t: Tables) {
    forall k :: k in t.rules ==> t.rules[k] != []
  }

  /** One draw, as a function of the tables, the key and the draw's ordinal. */
  function Draw(t: Tables, key: Key, ordinal: Word): nat
    requires NonEmptyRules(t)
  {
    var specific := (key.0, Some(key.1));
    var generic := (key.0, None);
    if specific in t.rules then Quantile(t.rules[specific], t.hash(t.seed, key.0, key.1, ordinal))
    else if generic in t.rules then Quantile(t.rules[generic], t.hash(t.seed, key.0, key.1, ordinal))
    else if key.0 in t.legacy then t.legacy[key.0]
    else 0
  }

  function OrdinalOf(c: Counters, key: Key): Word {
    if key in c.ordinals then c.ordinals[key] else 0
  }

  function UsageOf(c: Counters, key: Key): Usage {
    if key in c.usage then c.usage[key] else NoUsage
  }

  /** The counters after one draw of `key`. */
  function Drawn(t: Tables, c: Counters, key: Key): Counters
    requires NonEmptyRules(t)
  {
    var ordinal := OrdinalOf(c, key);
    Counters(
      c.ordinals[key := OrdinalAfter(ordinal + 1)],
      c.usage[key := Record(UsageOf(c, key), Draw(t, key, ordinal))])
  }

  class Sampler {
    const seed: Word
    const legacy: map<Class, nat>
    const rules: map<(Class, Option<Symbol>), seq<nat>>
    var ordinals: map<Key, Word>
    var usage: map<Key, Usage>

    ghost function TablesHeld(): Tables {
      Tables(DrawWord, seed, legacy, rules)
    }

    ghost function CountersHeld(): Counters
      reads this
    {
      Counters(ordinals, usage)
    }

    constructor (config: Config)
      requires ValidConfig(config)
      ensures TablesHeld() == TablesOf(DrawWord, config) && NonEmptyRules(TablesHeld())
      ensures CountersHeld() == Fresh
    {
      var table: map<(Class, Option<Symbol>), seq<nat>> := map[];
      for i := 0 to |config.rules|
        invariant table == RuleTable(config.rules[..i])
        invariant forall k :: k in table ==> table[k] != []
      {
        assert config.rules[..i + 1][..i] == config.rules[..i];
        var rule := config.rules[i];
        table := table[(rule.kind, rule.symbol) := SortNats(rule.samples)];
      }
      assert config.rules[..|config.rules|] == config.rules;
      seed := config.seed;
      legacy := LegacyTable(config);
      rules := table;
      ordinals := map[];
      usage := map[];
    }

    method LatencyFor(kind: Class, symbol: Symbol, ordinal: Word) returns (latencyMs: nat)
      requires NonEmptyRules(TablesHeld())
      ensures latencyMs == Draw(TablesHeld(), (kind, symbol), ordinal)
    {
      var specific := (kind, Some(symbol));
      var generic := (kind, None);
      if specific in rules {
        var index := DeterministicQuantileIndex(seed, kind, symbol, ordinal, |rules[specific]|);
        latencyMs := rules[specific][index];
      } else if generic in rules {
        var index := DeterministicQuantileIndex(seed, kind, symbol, ordinal, |rules[generic]|);
        latencyMs := rules[generic][index];
      } else {
        latencyMs := if kind in legacy then legacy[kind] else 0;
      }
    }

    method Sample(kind: Class, symbol: Symbol) returns (latencyMs: nat)
      requires NonEmptyRules(TablesHeld())
      modifies this
      ensures latencyMs == Draw(TablesHeld(), (kind, symbol), OrdinalOf(old(CountersHeld()), (kind, symbol)))
      ensures CountersHeld() == Drawn(TablesHeld(), old(CountersHeld()), (kind, symbol))
    {
      var key := (kind, symbol);
      var ordinal: nat := if key in ordinals then ordinals[key] else 0;
      ordinals := ordinals[key := OrdinalAfter(ordinal + 1)];
      latencyMs := LatencyFor(kind, symbol, ordinal);
      var used := if key in usage then usage[key] else NoUsage;
      usage := usage[key := Record(used, latencyMs)];
    }
  }

  // ---------------------------------------------------------------- whole runs

  /** The counters after a whole sequence of draws. */
  function RunCounters(t: Tables, calls: seq<Key>): Counters
    requires NonEmptyRules(t)
  {
    if calls == [] then Fresh
    else Drawn(t, RunCounters(t, calls[..|calls| - 1]), calls[|calls| - 1])
  }

  /** What the sampler returned to call number `i` of a run. */
  function RunDraw(t: Tables, calls: seq<Key>, i: nat): nat
    requires NonEmptyRules(t) && i < |calls|
  {
    Draw(t, calls[i], OrdinalOf(RunCounters(t, calls[..i]), calls[i]))
  }

  /** How often `key` was drawn. */
  function DrawCount(calls: seq<Key>, key: Key): nat {
    multiset(calls)[key]
  }

  /** Usage after `n` draws of one key, whatever else was drawn in between. */
  function UsageAfter(t: Tables, key: Key, n: nat): Usage
    requires NonEmptyRules(t)
  {
    if n == 0 then NoUsage
    else Record(UsageAfter(t, key, n - 1), Draw(t, key, OrdinalAfter(n - 1)))
  }

  lemma DrawCountExtends(calls: seq<Key>, key: Key)
    requires calls != []
    ensures DrawCount(calls, key)
            == DrawCount(calls[..|calls| - 1], key) + if calls[|calls| - 1] == key then 1 else 0
  {
    assert calls == calls[..|calls| - 1] + [calls[|calls| - 1]];
  }

  /** Each key's ordinal and usage depend only on how often that key was drawn. */
  lemma {:induction false} CountersDependOnCounts(t: Tables, calls: seq<Key>, key: Key)
    requires NonEmptyRules(t)
    ensures OrdinalOf(RunCounters(t, calls), key) == OrdinalAfter(DrawCount(calls, key))
    ensures UsageOf(RunCounters(t, calls), key) == UsageAfter(t, key, DrawCount(calls, key))
  {
    if calls != [] {
      CountersDependOnCounts(t, calls[..|calls| - 1], key);
      DrawCountExtends(calls, key);
    }
  }

  /** The last rule for exactly this class and symbol. */
  ghost function FindLastRule(rules: seq<Rule>, kind: Class, symbol: Option<Symbol>): (r: Option<Rule>)
    ensures r.Some? ==> r.value in rules && r.value.kind == kind && r.value.symbol == symbol
    ensures r.None? ==> forall x :: x in rules ==> x.kind != kind || x.symbol != symbol
  {
    if rules == [] then None
    else
      var n := |rules| - 1;
      assert forall x :: x in rules ==> x == rules[n] || x in rules[..n];
      if rules[n].kind == kind && rules[n].symbol == symbol then Some(rules[n])
      else FindLastRule(rules[..n], kind, symbol)
  }

  lemma {:induction false} RuleTableHoldsLastRule(rules: seq<Rule>, kind: Class, symbol: Option<Symbol>)
    ensures (kind, symbol) in RuleTable(rules) <==> FindLastRule(rules, kind, symbol).Some?
    ensures (kind, symbol) in RuleTable(rules) ==>
              RuleTable(rules)[(kind, symbol)] == SortNats(FindLastRule(rules, kind, symbol).value.samples)
  {
    if rules != [] {
      var last := rules[|rules| - 1];
      RuleTableHoldsLastRule(rules[..|rules| - 1], kind, symbol);
      if last.kind == kind && last.symbol == symbol {
        assert RuleTable(rules)[(kind, symbol)] == SortNats(last.samples);
      } else {
        assert (last.kind, last.symbol) != (kind, symbol);
      }
    }
  }

  /** The table that the sampler builds by overwriting finds the rule that the list search finds first. */
  lemma RuleTableFindsRule(rules: seq<Rule>, kind: Class, symbol: Option<Symbol>)
    requires forall i, j :: 0 <= i < j < |rules| ==>
               rules[i].kind != rules[j].kind || rules[i].symbol != rules[j].symbol
    ensures (kind, symbol) in RuleTable(rules) <==> FindRule(rules, kind, symbol).Some?
    ensures (kind, symbol) in RuleTable(rules) ==>
              RuleTable(rules)[(kind, symbol)] == SortNats(FindRule(rules, kind, symbol).value.samples)
  {
    RuleTableHoldsLastRule(rules, kind, symbol);
    assert FindRule(rules, kind, symbol) == FindLastRule(rules, kind, symbol);
  }

  lemma TablesAreNonEmpty(hash: Hash, c: Config)
    requires ValidConfig(c)
    ensures NonEmptyRules(TablesOf(hash, c))
  {
    forall k | k in RuleTable(c.rules) ensures RuleTable(c.rules)[k] != [] {
      RuleTableFindsRule(c.rules, k.0, k.1);
    }
  }

  /** A draw is the quantile of the effective samples at the draw's word. */
  lemma DrawIsEffectiveQuantile(hash: Hash, c: Config, key: Key, ordinal: Word)
    requires ValidConfig(c)
    ensures NonEmptyRules(TablesOf(hash, c))
    ensures EffectiveSamples(c, key.0, Some(key.1)) != []
    ensures Draw(TablesOf(hash, c), key, ordinal)
            == Quantile(EffectiveSamples(c, key.0, Some(key.1)), hash(c.seed, key.0, key.1, ordinal))
  {
    hide RuleTable;
    TablesAreNonEmpty(hash, c);
    RuleTableFindsRule(c.rules, key.0, Some(key.1));
    RuleTableFindsRule(c.rules, key.0, None);
  }

  /** Some rule is for exactly this class and symbol. */
  predicate HasRule(c: Config, kind: Class, symbol: Option<Symbol>) {
    exists r :: r in c.rules && r.kind == kind && r.symbol == symbol
  }

  /** The rule is the symbol's own, or the class's rule without a symbol while the symbol has none of its own. */
  predicate Governs(c: Config, r: Rule, kind: Class, symbol: Symbol) {
    r in c.rules && r.kind == kind && (r.symbol == Some(symbol) || (r.symbol.None? && !HasRule(c, kind, Some(symbol))))
  }

  lemma OnlyRule(c: Config, r: Rule)
    requires ValidConfig(c) && r in c.rules
    ensures FindRule(c.rules, r.kind, r.symbol) == Some(r)
  {
    var found := FindRule(c.rules, r.kind, r.symbol).value;
    var i :| 0 <= i < |c.rules| && c.rules[i] == r;
    var j :| 0 <= j < |c.rules| && c.rules[j] == found;
  }

  /** A symbol draws from its own rule; without one, from the class's rule without a symbol. */
  lemma RuleGoverns(hash: Hash, c: Config, r: Rule, key: Key, ordinal: Word)
    requires ValidConfig(c) && Governs(c, r, key.0, key.1)
    ensures multiset(EffectiveSamples(c, key.0, Some(key.1))) == multiset(r.samples)
    ensures NonEmptyRules(TablesOf(hash, c)) && Draw(TablesOf(hash, c), key, ordinal) in r.samples
  {
    OnlyRule(c, r);
    DrawIsEffectiveQuantile(hash, c, key, ordinal);
    var own := FindRule(c.rules, key.0, Some(key.1));
    var samples := EffectiveSamples(c, key.0, Some(key.1));
    assert samples == SortNats(r.samples);
    hide EffectiveSamples, Draw, TablesOf, NonEmptyRules;
    assert Draw(TablesOf(hash, c), key, ordinal) in multiset(samples);
  }

  /** A symbol that no rule covers draws the constant of its class. */
  lemma ConstantGoverns(hash: Hash, c: Config, key: Key, ordinal: Word)
    requires ValidConfig(c) && !HasRule(c, key.0, Some(key.1)) && !HasRule(c, key.0, None)
    ensures NonEmptyRules(TablesOf(hash, c))
    ensures var d := Draw(TablesOf(hash, c), key, ordinal);
            && (key.0.MarketDepth? || key.0.HistoricalTrade? || key.0.ReferenceData? ==> d == c.marketDataMs)
            && (key.0.MatchingNew? ==> d == c.orderEntryMs)
            && (key.0.MatchingCancel? ==> d == c.cancelMs)
            && (key.0.OrderUpdate? ==> d == c.orderUpdateMs)
            && (key.0.OrderFill? ==> d == c.fillAccountMs)
  {
    hide RuleTable, Quantile;
    TablesAreNonEmpty(hash, c);
    RuleTableFindsRule(c.rules, key.0, Some(key.1));
    RuleTableFindsRule(c.rules, key.0, None);
  }

  lemma CoupledDraw(hash: Hash, stress: Config, baseline: Config, key: Key, ordinal: Word)
    requires ValidConfig(stress) && ValidConfig(baseline)
    requires LatencyNoLessConservative(stress, baseline)
    ensures NonEmptyRules(TablesOf(hash, stress)) && NonEmptyRules(TablesOf(hash, baseline))
    ensures Draw(TablesOf(hash, stress), key, ordinal) >= Draw(TablesOf(hash, baseline), key, ordinal)
  {
    hide Draw, TablesOf, EffectiveSamples, NonEmptyRules, Quantile;
    DrawIsEffectiveQuantile(hash, stress, key, ordinal);
    DrawIsEffectiveQuantile(hash, baseline, key, ordinal);
    AcceptedStressDominates(stress, baseline, key.0, key.1);
    EffectiveSamplesWellFormed(stress, key.0, Some(key.1));
    EffectiveSamplesWellFormed(baseline, key.0, Some(key.1));
    CheckedDrawDominates(EffectiveSamples(stress, key.0, Some(key.1)),
                         EffectiveSamples(baseline, key.0, Some(key.1)),
                         hash(stress.seed, key.0, key.1, ordinal));
  }

  /**
   In any two runs, however their calls interleave, the k-th draw of a key from an accepted stress
   configuration is at least the k-th draw of that key from the baseline.
   */
  lemma CoupledRuns(hash: Hash, stress: Config, baseline: Config, stressCalls: seq<Key>, baselineCalls: seq<Key>,
                    i: nat, j: nat)
    requires ValidConfig(stress) && ValidConfig(baseline)
    requires LatencyNoLessConservative(stress, baseline)
    requires i < |stressCalls| && j < |baselineCalls| && stressCalls[i] == baselineCalls[j]
    requires DrawCount(stressCalls[..i], stressCalls[i]) == DrawCount(baselineCalls[..j], baselineCalls[j])
    ensures NonEmptyRules(TablesOf(hash, stress)) && NonEmptyRules(TablesOf(hash, baseline))
    ensures RunDraw(TablesOf(hash, stress), stressCalls, i) >= RunDraw(TablesOf(hash, baseline), baselineCalls, j)
  {
    var key := stressCalls[i];
    TablesAreNonEmpty(hash, stress);
    TablesAreNonEmpty(hash, baseline);
    CountersDependOnCounts(TablesOf(hash, stress), stressCalls[..i], key);
    CountersDependOnCounts(TablesOf(hash, baseline), baselineCalls[..j], key);
    CoupledDraw(hash, stress, baseline, key, OrdinalAfter(DrawCount(stressCalls[..i], key)));
  }

  ghost predicate UsageNoLess(stress: Usage, baseline: Usage) {
    && stress.samples == baseline.samples
    && stress.totalMs >= baseline.totalMs
    && MeanMs(stress) >= MeanMs(baseline)
    && stress.maximumMs >= baseline.maximumMs
    && stress.minimumMs.Some? == baseline.minimumMs.Some?
    && (stress.minimumMs.Some? ==> stress.minimumMs.value >= baseline.minimumMs.value)
  }

  lemma MeanGrows(stress: Usage, baseline: Usage)
    requires stress.samples == baseline.samples && stress.totalMs >= baseline.totalMs
    ensures MeanMs(stress) >= MeanMs(baseline)
  {
  }

  /** Between the smallest and the largest latency drawn, while the counters have not saturated. */
  lemma {:induction false} MeanIsBetween(t: Tables, key: Key, n: nat)
    requires NonEmptyRules(t) && n > 0 && UsageAfter(t, key, n).samples < U64_MAX
             && UsageAfter(t, key, n).totalMs < U64_MAX
    ensures var u := UsageAfter(t, key, n);
            u.samples == n && u.minimumMs.Some? && u.minimumMs.value as real <= MeanMs(u) <= u.maximumMs as real
  {
    hide Draw, NonEmptyRules, UsageAfter, Product;
    TotalIsBetween(t, key, n);
    var u := UsageAfter(t, key, n);
    Between(n, u.totalMs, u.minimumMs.value, u.maximumMs);
  }

  function Product(n: nat, x: nat): nat {
    n * x
  }

  lemma ProductGrows(n: nat, x: nat, y: nat)
    requires x <= y
    ensures Product(n, x) <= Product(n, y) && Product(n + 1, x) == Product(n, x) + x
  {
  }

  lemma QuotientBetween(n: real, total: real, low: real, high: real)
    requires n > 0.0 && low * n <= total <= high * n
    ensures low <= total / n <= high
  {
  }

  lemma ProductIsReal(n: nat, x: nat)
    ensures Product(n, x) as real == x as real * n as real
  {
  }

  lemma Between(n: nat, total: nat, low: nat, high: nat)
    requires n > 0 && Product(n, low) <= total <= Product(n, high)
    ensures low as real <= total as real / n as real <= high as real
  {
    hide Product;
    ProductIsReal(n, low);
    ProductIsReal(n, high);
    QuotientBetween(n as real, total as real, low as real, high as real);
  }

  predicate TotalBetween(u: Usage, n: nat) {
    u.samples == n && u.minimumMs.Some? && Product(n, u.minimumMs.value) <= u.totalMs <= Product(n, u.maximumMs)
  }

  lemma RecordBetween(u: Usage, x: nat, n: nat)
    requires Record(u, x).samples < U64_MAX && Record(u, x).totalMs < U64_MAX
             && (if n == 0 then u == NoUsage else TotalBetween(u, n))
    ensures TotalBetween(Record(u, x), n + 1)
  {
    hide Product;
    var now := Record(u, x);
    ProductGrows(n, now.minimumMs.value, if n == 0 then now.minimumMs.value else u.minimumMs.value);
    ProductGrows(n, u.maximumMs, now.maximumMs);
    ProductGrows(n, now.maximumMs, now.maximumMs);
    if n == 0 {
      NoProduct(now.minimumMs.value);
      NoProduct(now.maximumMs);
    }
  }

  lemma NoProduct(x: nat)
    ensures Product(0, x) == 0
  {
  }

  lemma {:induction false} TotalIsBetween(t: Tables, key: Key, n: nat)
    requires NonEmptyRules(t) && n > 0 && UsageAfter(t, key, n).samples < U64_MAX
             && UsageAfter(t, key, n).totalMs < U64_MAX
    ensures TotalBetween(UsageAfter(t, key, n), n)
  {
    hide Draw, NonEmptyRules, TotalBetween;
    if n > 1 {
      TotalIsBetween(t, key, n - 1);
    }
    RecordBetween(UsageAfter(t, key, n - 1), Draw(t, key, OrdinalAfter(n - 1)), n - 1);
  }

  /** All that a key was drawn. */
  function DrawSum(t: Tables, key: Key, n: nat): nat
    requires NonEmptyRules(t)
  {
    if n == 0 then 0 else DrawSum(t, key, n - 1) + Draw(t, key, OrdinalAfter(n - 1))
  }

  /** The report of a key after `n` draws: their number, sum, smallest and largest, counts and sums saturating. */
  lemma {:induction false} UsageReports(t: Tables, key: Key, n: nat)
    requires NonEmptyRules(t)
    ensures var u := UsageAfter(t, key, n);
            && u.samples == Min(n, U64_MAX) && u.totalMs == Min(DrawSum(t, key, n), U64_MAX)
            && (u.minimumMs.None? <==> n == 0)
            && (forall k :: 0 <= k < n ==> u.minimumMs.value <= Draw(t, key, OrdinalAfter(k)) <= u.maximumMs)
            && (n > 0 ==> exists k :: 0 <= k < n && Draw(t, key, OrdinalAfter(k)) == u.minimumMs.value)
            && (n > 0 ==> exists k :: 0 <= k < n && Draw(t, key, OrdinalAfter(k)) == u.maximumMs)
  {
    hide Draw, NonEmptyRules;
    if n > 0 {
      UsageReports(t, key, n - 1);
      var u, v, d := UsageAfter(t, key, n - 1), UsageAfter(t, key, n), Draw(t, key, OrdinalAfter(n - 1));
      if v.minimumMs.value != d {
        var k :| 0 <= k < n - 1 && Draw(t, key, OrdinalAfter(k)) == u.minimumMs.value;
        assert Draw(t, key, OrdinalAfter(k)) == v.minimumMs.value;
      }
      if v.maximumMs != d && n > 1 {
        var k :| 0 <= k < n - 1 && Draw(t, key, OrdinalAfter(k)) == u.maximumMs;
        assert Draw(t, key, OrdinalAfter(k)) == v.maximumMs;
      }
    }
  }

  lemma RecordNoLess(stress: Usage, baseline: Usage, x: nat, y: nat)
    requires UsageNoLess(stress, baseline) && x >= y
    ensures UsageNoLess(Record(stress, x), Record(baseline, y))
  {
    hide MeanMs;
    MeanGrows(Record(stress, x), Record(baseline, y));
  }

  lemma {:induction false} CoupledUsageAfter(hash: Hash, stress: Config, baseline: Config, key: Key, n: nat)
    requires ValidConfig(stress) && ValidConfig(baseline)
    requires LatencyNoLessConservative(stress, baseline)
    ensures NonEmptyRules(TablesOf(hash, stress)) && NonEmptyRules(TablesOf(hash, baseline))
    ensures UsageNoLess(UsageAfter(TablesOf(hash, stress), key, n), UsageAfter(TablesOf(hash, baseline), key, n))
  {
    TablesAreNonEmpty(hash, stress);
    TablesAreNonEmpty(hash, baseline);
    if n > 0 {
      hide UsageNoLess, Record, Draw, TablesOf, ValidConfig, LatencyNoLessConservative, NonEmptyRules;
      CoupledUsageAfter(hash, stress, baseline, key, n - 1);
      CoupledDraw(hash, stress, baseline, key, OrdinalAfter(n - 1));
      RecordNoLess(UsageAfter(TablesOf(hash, stress), key, n - 1), UsageAfter(TablesOf(hash, baseline), key, n - 1),
                   Draw(TablesOf(hash, stress), key, OrdinalAfter(n - 1)),
                   Draw(TablesOf(hash, baseline), key, OrdinalAfter(n - 1)));
    }
  }

  /** The reported per-key usage of an accepted stress run dominates that of a baseline run with as many draws. */
  lemma CoupledUsage(hash: Hash, stress: Config, baseline: Config, stressCalls: seq<Key>, baselineCalls: seq<Key>,
                     key: Key)
    requires ValidConfig(stress) && ValidConfig(baseline)
    requires LatencyNoLessConservative(stress, baseline)
    requires DrawCount(stressCalls, key) == DrawCount(baselineCalls, key)
    ensures NonEmptyRules(TablesOf(hash, stress)) && NonEmptyRules(TablesOf(hash, baseline))
    ensures UsageNoLess(UsageOf(RunCounters(TablesOf(hash, stress), stressCalls), key),
                        UsageOf(RunCounters(TablesOf(hash, baseline), baselineCalls), key))
  {
    CoupledUsageAfter(hash, stress, baseline, key, DrawCount(stressCalls, key));
    CountersDependOnCounts(TablesOf(hash, stress), stressCalls, key);
    CountersDependOnCounts(TablesOf(hash, baseline), baselineCalls, key);
  }
}
