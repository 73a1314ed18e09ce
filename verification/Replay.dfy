/**
 Replaying a raw capture, whole or a range of its records, through an arbitrary deterministic feed processor, with the
 reference prices seen before the range re-announced at its start. Prices are exact reals.
 */
module Replay {
  import opened Common
  import opened Sorting
  import opened Keys
  import opened Sequences

  type Symbol = string

  datatype Event =
    | IndexPrice(symbol: Symbol, ts: nat, px: real)
    | FundingRate(symbol: Symbol, ts: nat, rate: real)
    | PriceLimits(symbol: Symbol, ts: nat, mark: real, down: real, up: real)
    | Other(id: nat)

  // ---------------------------------------------------------------- the reference state before a range

  datatype WarmLimits = WarmLimits(mark: Option<(nat, real)>, limits: Option<(nat, real, real)>)

  const NO_LIMITS := WarmLimits(None, None)

  datatype Warm = Warm(index: map<Symbol, Event>, funding: map<Symbol, Event>, limits: map<Symbol, WarmLimits>)

  const COLD := Warm(map[], map[], map[])

  function LimitsOf(w: Warm, s: Symbol): WarmLimits {
    if s in w.limits then w.limits[s] else NO_LIMITS
  }

  function Seen(l: WarmLimits, e: Event): WarmLimits
    requires e.PriceLimits?
  {
    WarmLimits(if e.mark > 0.0 then Some((e.ts, e.mark)) else l.mark,
               if e.down > 0.0 || e.up > 0.0 then Some((e.ts, e.down, e.up)) else l.limits)
  }

  function Observe(w: Warm, e: Event): Warm {
    match e
    case IndexPrice(s, _, _) => w.(index := w.index[s := e])
    case FundingRate(s, _, _) => w.(funding := w.funding[s := e])
    case PriceLimits(s, _, _, _, _) => w.(limits := w.limits[s := Seen(LimitsOf(w, s), e)])
    case Other(_) => w
  }

  function ObserveAll(w: Warm, events: seq<Event>): Warm
    decreases |events|
  {
    if events == [] then w else ObserveAll(Observe(w, events[0]), events[1..])
  }

  /** The event that re-announces what is known of a symbol's limits, stamped with the later of the two times. */
  function Announce(s: Symbol, l: WarmLimits): Event {
    var markTs := if l.mark.Some? then l.mark.value.0 else 0;
    var limitTs := if l.limits.Some? then l.limits.value.0 else 0;
    PriceLimits(s, Max(markTs, limitTs),
                if l.mark.Some? then l.mark.value.1 else 0.0,
                if l.limits.Some? then l.limits.value.1 else 0.0,
                if l.limits.Some? then l.limits.value.2 else 0.0)
  }

  function Valued(m: map<Symbol, Event>, keys: seq<Symbol>): seq<Event> {
    if keys == [] then []
    else (if keys[0] in m then [m[keys[0]]] else []) + Valued(m, keys[1..])
  }

  function Announced(m: map<Symbol, WarmLimits>, keys: seq<Symbol>): seq<Event> {
    if keys == [] then []
    else (if keys[0] in m && m[keys[0]] != NO_LIMITS then [Announce(keys[0], m[keys[0]])] else []) + Announced(m, keys[1..])
  }

  /** The seed events: index prices, funding rates and limits, each in symbol order. */
  ghost function Seeds(w: Warm): seq<Event> {
    Valued(w.index, SortedKeys(w.index.Keys)) + Valued(w.funding, SortedKeys(w.funding.Keys))
    + Announced(w.limits, SortedKeys(w.limits.Keys))
  }

  /** Every entry is what observing its symbol's events can leave. */
  predicate Kept(w: Warm) {
    IsIndex(w.index) && IsFunding(w.funding) && forall s :: s in w.limits ==> Plausible(w.limits[s])
  }

  predicate IsIndex(m: map<Symbol, Event>) {
    forall s :: s in m ==> m[s].IndexPrice? && m[s].symbol == s
  }

  predicate IsFunding(m: map<Symbol, Event>) {
    forall s :: s in m ==> m[s].FundingRate? && m[s].symbol == s
  }

  /** Only usable marks and limits are remembered. */
  predicate Plausible(l: WarmLimits) {
    && (l.mark.Some? ==> l.mark.value.1 > 0.0)
    && (l.limits.Some? ==> l.limits.value.1 > 0.0 || l.limits.value.2 > 0.0)
  }

  lemma {:induction false} ObserveAllKept(w: Warm, events: seq<Event>)
    requires Kept(w)
    ensures Kept(ObserveAll(w, events))
    decreases |events|
  {
    if events != [] {
      ObserveAllKept(Observe(w, events[0]), events[1..]);
    }
  }

  lemma {:induction false} ObserveAppend(w: Warm, a: seq<Event>, b: seq<Event>)
    ensures ObserveAll(w, a + b) == ObserveAll(ObserveAll(w, a), b)
    decreases |a|
  {
    if a == [] {
      assert a + b == b;
    } else {
      ObserveAppend(Observe(w, a[0]), a[1..], b);
      assert (a + b)[1..] == a[1..] + b;
    }
  }

  // ---------------------------------------------------------------- the latest of everything

  /** What an event can be about: an index price, a funding rate, a usable mark, a usable bound, or limits at all. */
  datatype Topic = AnIndex | AFunding | AMark | ABound | SomeLimits

  predicate About(e: Event, t: Topic, s: Symbol) {
    match t
    case AnIndex => e.IndexPrice? && e.symbol == s
    case AFunding => e.FundingRate? && e.symbol == s
    case AMark => e.PriceLimits? && e.symbol == s && e.mark > 0.0
    case ABound => e.PriceLimits? && e.symbol == s && (e.down > 0.0 || e.up > 0.0)
    case SomeLimits => e.PriceLimits? && e.symbol == s
  }

  /** The last event about a topic of a symbol. */
  function Latest(events: seq<Event>, t: Topic, s: Symbol): (r: Option<Event>)
    ensures r.None? <==> forall k :: 0 <= k < |events| ==> !About(events[k], t, s)
    ensures r.Some? ==> About(r.value, t, s)
    ensures r.Some? ==>
              exists k :: 0 <= k < |events| && events[k] == r.value
                          && forall j :: k < j < |events| ==> !About(events[j], t, s)
  {
    if events == [] then None
    else
      var n := |events| - 1;
      if About(events[n], t, s) then Some(events[n])
      else
        var r := Latest(events[..n], t, s);
        assert forall k :: 0 <= k < n ==> events[..n][k] == events[k];
        r
  }

  /** The warm state holds the latest index price and funding rate of the symbol. */
  ghost predicate RemembersPrices(w: Warm, events: seq<Event>, s: Symbol) {
    var (index, funding) := (Latest(events, AnIndex, s), Latest(events, AFunding, s));
    && (s in w.index <==> index.Some?) && (index.Some? ==> w.index[s] == index.value)
    && (s in w.funding <==> funding.Some?) && (funding.Some? ==> w.funding[s] == funding.value)
  }

  /** And its latest usable mark and latest usable bounds. */
  ghost predicate RemembersLimits(w: Warm, events: seq<Event>, s: Symbol) {
    var (mark, bound) := (Latest(events, AMark, s), Latest(events, ABound, s));
    && (s in w.limits <==> Latest(events, SomeLimits, s).Some?)
    && LimitsOf(w, s).mark == (if mark.None? then None else Some((mark.value.ts, mark.value.mark)))
    && LimitsOf(w, s).limits
       == (if bound.None? then None else Some((bound.value.ts, bound.value.down, bound.value.up)))
  }

  ghost predicate Remembers(w: Warm, events: seq<Event>, s: Symbol) {
    RemembersPrices(w, events, s) && RemembersLimits(w, events, s)
  }

  lemma LatestSnoc(events: seq<Event>, e: Event, t: Topic, s: Symbol)
    ensures Latest(events + [e], t, s) == if About(e, t, s) then Some(e) else Latest(events, t, s)
  {
    assert (events + [e])[..|events|] == events;
  }

  lemma ObserveRemembersPrices(w: Warm, events: seq<Event>, e: Event, s: Symbol)
    requires RemembersPrices(w, events, s)
    ensures RemembersPrices(Observe(w, e), events + [e], s)
  {
    hide Latest;
    LatestSnoc(events, e, AnIndex, s);
    LatestSnoc(events, e, AFunding, s);
  }

  lemma ObserveRemembersLimits(w: Warm, events: seq<Event>, e: Event, s: Symbol)
    requires RemembersLimits(w, events, s)
    ensures RemembersLimits(Observe(w, e), events + [e], s)
  {
    hide Latest;
    LatestSnoc(events, e, AMark, s);
    LatestSnoc(events, e, ABound, s);
    LatestSnoc(events, e, SomeLimits, s);
  }

  /** Observing any events from a cold start remembers exactly the latest of everything. */
  lemma {:induction false} ObservedIsLatest(events: seq<Event>, s: Symbol)
    ensures Remembers(ObserveAll(COLD, events), events, s)
  {
    if events != [] {
      var n := |events| - 1;
      hide Observe, RemembersPrices, RemembersLimits;
      ObservedIsLatest(events[..n], s);
      ObserveRemembersPrices(ObserveAll(COLD, events[..n]), events[..n], events[n], s);
      ObserveRemembersLimits(ObserveAll(COLD, events[..n]), events[..n], events[n], s);
      assert events[..n] + [events[n]] == events;
      ObserveAppend(COLD, events[..n], [events[n]]);
      OneObserved(ObserveAll(COLD, events[..n]), events[n]);
    }
  }

  lemma OneObserved(w: Warm, e: Event)
    ensures ObserveAll(w, [e]) == Observe(w, e)
  {
    assert [e][1..] == [];
  }

  // ---------------------------------------------------------------- the seeds of a list of events

  function Symbols(events: seq<Event>, t: Topic): set<Symbol> {
    set e | e in events && !e.Other? && About(e, t, e.symbol) :: e.symbol
  }

  lemma SymbolsHaveLatest(events: seq<Event>, t: Topic, s: Symbol)
    ensures s in Symbols(events, t) <==> Latest(events, t, s).Some?
  {
    if Latest(events, t, s).Some? {
      var k :| 0 <= k < |events| && About(events[k], t, s);
      assert events[k] in events;
    }
  }

  function LatestEach(events: seq<Event>, t: Topic, symbols: seq<Symbol>): seq<Event> {
    if symbols == [] then []
    else (if Latest(events, t, symbols[0]).Some? then [Latest(events, t, symbols[0]).value] else [])
         + LatestEach(events, t, symbols[1..])
  }

  /** What is announced of a symbol's limits: its latest mark and its latest bounds, at the later of their times. */
  function LimitSeed(events: seq<Event>, s: Symbol): seq<Event> {
    var (mark, bound) := (Latest(events, AMark, s), Latest(events, ABound, s));
    if mark.None? && bound.None? then []
    else if bound.None? then [PriceLimits(s, mark.value.ts, mark.value.mark, 0.0, 0.0)]
    else if mark.None? then [PriceLimits(s, bound.value.ts, 0.0, bound.value.down, bound.value.up)]
    else [PriceLimits(s, Max(mark.value.ts, bound.value.ts), mark.value.mark, bound.value.down, bound.value.up)]
  }

  function LimitSeeds(events: seq<Event>, symbols: seq<Symbol>): seq<Event> {
    if symbols == [] then [] else LimitSeed(events, symbols[0]) + LimitSeeds(events, symbols[1..])
  }

  /** The latest index prices, funding rates and limits, each in symbol order. */
  ghost function LatestSeeds(events: seq<Event>): seq<Event> {
    LatestEach(events, AnIndex, SortedKeys(Symbols(events, AnIndex)))
    + LatestEach(events, AFunding, SortedKeys(Symbols(events, AFunding)))
    + LimitSeeds(events, SortedKeys(Symbols(events, SomeLimits)))
  }

  lemma {:induction false} ValuedIsLatest(events: seq<Event>, t: Topic, m: map<Symbol, Event>, keys: seq<Symbol>)
    requires forall s :: (s in m <==> Latest(events, t, s).Some?) && (s in m ==> m[s] == Latest(events, t, s).value)
    ensures Valued(m, keys) == LatestEach(events, t, keys)
  {
    hide Latest;
    if keys != [] {
      ValuedIsLatest(events, t, m, keys[1..]);
    }
  }

  lemma {:induction false} AnnouncedIsLatest(events: seq<Event>, w: Warm, keys: seq<Symbol>)
    requires forall s :: Remembers(w, events, s)
    ensures Announced(w.limits, keys) == LimitSeeds(events, keys)
  {
    if keys != [] {
      OneAnnounced(events, w, keys[0]);
      hide Remembers, LimitSeed, Announce;
      AnnouncedIsLatest(events, w, keys[1..]);
    }
  }

  lemma OneAnnounced(events: seq<Event>, w: Warm, s: Symbol)
    requires Remembers(w, events, s)
    ensures (if s in w.limits && w.limits[s] != NO_LIMITS then [Announce(s, w.limits[s])] else []) == LimitSeed(events, s)
  {
    hide Latest;
  }

  lemma SameSymbols(events: seq<Event>, w: Warm)
    requires forall s :: Remembers(w, events, s)
    ensures w.index.Keys == Symbols(events, AnIndex) && w.funding.Keys == Symbols(events, AFunding)
    ensures w.limits.Keys == Symbols(events, SomeLimits)
  {
    hide Latest, Symbols;
    forall s
      ensures s in w.index.Keys <==> s in Symbols(events, AnIndex)
      ensures s in w.funding.Keys <==> s in Symbols(events, AFunding)
      ensures s in w.limits.Keys <==> s in Symbols(events, SomeLimits)
    {
      assert Remembers(w, events, s);
      SymbolsHaveLatest(events, AnIndex, s);
      SymbolsHaveLatest(events, AFunding, s);
      SymbolsHaveLatest(events, SomeLimits, s);
    }
  }

  /** The seeds after any events are the latest of everything they announced. */
  lemma SeedsAreLatest(events: seq<Event>)
    ensures Seeds(ObserveAll(COLD, events)) == LatestSeeds(events)
  {
    hide Latest, Symbols, Valued, Announced, LatestEach, LimitSeeds, ObserveAll;
    var w := ObserveAll(COLD, events);
    forall s ensures Remembers(w, events, s) {
      ObservedIsLatest(events, s);
    }
    SameSymbols(events, w);
    forall s
      ensures (s in w.index <==> Latest(events, AnIndex, s).Some?)
              && (s in w.index ==> w.index[s] == Latest(events, AnIndex, s).value)
      ensures (s in w.funding <==> Latest(events, AFunding, s).Some?)
      ensures s in w.funding ==> w.funding[s] == Latest(events, AFunding, s).value
    {
      assert Remembers(w, events, s);
    }
    ValuedIsLatest(events, AnIndex, w.index, SortedKeys(w.index.Keys));
    ValuedIsLatest(events, AFunding, w.funding, SortedKeys(w.funding.Keys));
    AnnouncedIsLatest(events, w, SortedKeys(w.limits.Keys));
  }

  // ---------------------------------------------------------------- announcing and observing again

  lemma {:induction false} ReobserveIndex(w: Warm, m: map<Symbol, Event>, keys: seq<Symbol>)
    requires IsIndex(m)
    ensures var r := ObserveAll(w, Valued(m, keys));
            && r == w.(index := r.index)
            && forall s :: (s in r.index <==> s in w.index || (s in keys && s in m))
                           && (s in r.index ==> r.index[s] == if s in keys && s in m then m[s] else w.index[s])
    decreases |keys|
  {
    if keys != [] {
      var s := keys[0];
      if s in m {
        assert Valued(m, keys)[0] == m[s] && Valued(m, keys)[1..] == Valued(m, keys[1..]);
        ReobserveIndex(Observe(w, m[s]), m, keys[1..]);
      } else {
        assert Valued(m, keys) == Valued(m, keys[1..]);
        ReobserveIndex(w, m, keys[1..]);
      }
    }
  }

  lemma {:induction false} ReobserveFunding(w: Warm, m: map<Symbol, Event>, keys: seq<Symbol>)
    requires IsFunding(m)
    ensures var r := ObserveAll(w, Valued(m, keys));
            && r == w.(funding := r.funding)
            && forall s :: (s in r.funding <==> s in w.funding || (s in keys && s in m))
                           && (s in r.funding ==> r.funding[s] == if s in keys && s in m then m[s] else w.funding[s])
    decreases |keys|
  {
    if keys != [] {
      var s := keys[0];
      if s in m {
        assert Valued(m, keys)[0] == m[s] && Valued(m, keys)[1..] == Valued(m, keys[1..]);
        ReobserveFunding(Observe(w, m[s]), m, keys[1..]);
      } else {
        assert Valued(m, keys) == Valued(m, keys[1..]);
        ReobserveFunding(w, m, keys[1..]);
      }
    }
  }

  /** The same marks and limits with both times moved to the later one. */
  function Restamped(l: WarmLimits): WarmLimits {
    var ts := Announce("", l).ts;
    WarmLimits(if l.mark.Some? then Some((ts, l.mark.value.1)) else None,
               if l.limits.Some? then Some((ts, l.limits.value.1, l.limits.value.2)) else None)
  }

  lemma AnnounceRestamps(s: Symbol, l: WarmLimits)
    requires Plausible(l)
    ensures Seen(NO_LIMITS, Announce(s, l)) == Restamped(l)
    ensures Announce(s, Restamped(l)) == Announce(s, l)
    ensures Restamped(l) == NO_LIMITS <==> l == NO_LIMITS
  {
  }

  lemma {:induction false} ReobserveLimits(w: Warm, m: map<Symbol, WarmLimits>, keys: seq<Symbol>)
    requires Distinct(keys) && forall s :: s in m ==> Plausible(m[s])
    requires forall s :: s in keys ==> s !in w.limits
    ensures var r := ObserveAll(w, Announced(m, keys));
            && r == w.(limits := r.limits)
            && forall s :: (s in r.limits <==> s in w.limits || (s in keys && s in m && m[s] != NO_LIMITS))
                           && (s in r.limits ==>
                                 r.limits[s] == if s in keys && s in m && m[s] != NO_LIMITS then Restamped(m[s])
                                                else w.limits[s])
    decreases |keys|
  {
    hide Restamped, Announce, Plausible;
    if keys != [] {
      var s := keys[0];
      var rest := keys[1..];
      assert Distinct(rest) && s !in rest;
      if s in m && m[s] != NO_LIMITS {
        var e := Announce(s, m[s]);
        assert Announced(m, keys)[0] == e && Announced(m, keys)[1..] == Announced(m, rest);
        AnnounceIs(s, m[s]);
        AnnounceRestamps(s, m[s]);
        ReobserveLimits(Observe(w, e), m, rest);
      } else {
        assert Announced(m, keys) == Announced(m, rest);
        ReobserveLimits(w, m, rest);
      }
    }
  }

  lemma AnnounceIs(s: Symbol, l: WarmLimits)
    ensures Announce(s, l).PriceLimits? && Announce(s, l).symbol == s
  {
  }

  /** Keys that have something to announce. */
  function Announcing(m: map<Symbol, WarmLimits>, keys: seq<Symbol>): seq<Symbol> {
    if keys == [] then []
    else (if keys[0] in m && m[keys[0]] != NO_LIMITS then [keys[0]] else []) + Announcing(m, keys[1..])
  }

  lemma {:induction false} AnnouncingKeeps(m: map<Symbol, WarmLimits>, keys: seq<Symbol>)
    requires Distinct(keys) && SortedBy(keys, StringLeq)
    ensures var r := Announcing(m, keys);
            && Distinct(r) && SortedBy(r, StringLeq)
            && (forall s :: s in r <==> s in keys && s in m && m[s] != NO_LIMITS)
    decreases |keys|
  {
    hide StringLeq;
    if keys != [] {
      AnnouncingKeeps(m, keys[1..]);
      var r, tail := Announcing(m, keys), Announcing(m, keys[1..]);
      if keys[0] in m && m[keys[0]] != NO_LIMITS {
        assert r[0] == keys[0] && r[1..] == tail;
        forall j | 0 <= j < |tail|
          ensures tail[j] != keys[0] && StringLeq(keys[0], tail[j])
        {
          assert tail[j] in tail;
          var i :| 0 <= i < |keys[1..]| && keys[1..][i] == tail[j];
          assert keys[i + 1] == tail[j];
        }
      }
    }
  }

  lemma {:induction false} AnnouncedBy(m: map<Symbol, WarmLimits>, keys: seq<Symbol>)
    ensures Announced(m, keys) == Announced(m, Announcing(m, keys))
    decreases |keys|
  {
    hide Announce;
    if keys != [] {
      AnnouncedBy(m, keys[1..]);
      if keys[0] in m && m[keys[0]] != NO_LIMITS {
        var r := Announcing(m, keys);
        assert r[0] == keys[0] && r[1..] == Announcing(m, keys[1..]);
      } else {
        assert Announcing(m, keys) == Announcing(m, keys[1..]);
      }
    }
  }

  lemma {:induction false} SameAnnouncements(m: map<Symbol, WarmLimits>, r: map<Symbol, WarmLimits>, keys: seq<Symbol>)
    requires forall s :: s in keys ==> s in m && m[s] != NO_LIMITS && Plausible(m[s]) && s in r && r[s] == Restamped(m[s])
    ensures Announced(r, keys) == Announced(m, keys)
    decreases |keys|
  {
    hide Announce, Restamped, Plausible;
    if keys != [] {
      AnnounceRestamps(keys[0], m[keys[0]]);
      SameAnnouncements(m, r, keys[1..]);
    }
  }

  /** What a fresh state knows after observing the seeds of `w`. */
  ghost function Reseeded(w: Warm): Warm {
    ObserveAll(COLD, Seeds(w))
  }

  lemma ReobservePrices(w: Warm)
    requires Kept(w)
    ensures ObserveAll(COLD, Valued(w.index, SortedKeys(w.index.Keys)) + Valued(w.funding, SortedKeys(w.funding.Keys)))
            == Warm(w.index, w.funding, map[])
  {
    hide Observe, Valued, ObserveAll, Plausible, SortedKeys;
    var a := Valued(w.index, SortedKeys(w.index.Keys));
    var b := Valued(w.funding, SortedKeys(w.funding.Keys));
    ObserveAppend(COLD, a, b);
    ReobserveIndex(COLD, w.index, SortedKeys(w.index.Keys));
    ReobserveFunding(ObserveAll(COLD, a), w.funding, SortedKeys(w.funding.Keys));
  }

  lemma ReseededIs(w: Warm)
    requires Kept(w)
    ensures var r := Reseeded(w);
            && r.index == w.index && r.funding == w.funding
            && (forall s :: s in r.limits <==> s in w.limits && w.limits[s] != NO_LIMITS)
            && (forall s :: s in r.limits ==> r.limits[s] == Restamped(w.limits[s]))
  {
    hide Observe, Restamped, Announced, Valued, ObserveAll, Plausible, SortedKeys;
    var prices := Valued(w.index, SortedKeys(w.index.Keys)) + Valued(w.funding, SortedKeys(w.funding.Keys));
    ObserveAppend(COLD, prices, Announced(w.limits, SortedKeys(w.limits.Keys)));
    ReobservePrices(w);
    ReobserveLimits(Warm(w.index, w.funding, map[]), w.limits, SortedKeys(w.limits.Keys));
  }

  /** Re-observing the seeds gives back every value per symbol; only the times of limits move, to the later of the two. */
  lemma SeedsRestore(w: Warm, s: Symbol)
    requires Kept(w)
    ensures Reseeded(w).index == w.index && Reseeded(w).funding == w.funding
    ensures var (l, r) := (LimitsOf(w, s), LimitsOf(Reseeded(w), s));
            && (l.mark.None? <==> r.mark.None?) && (l.mark.Some? ==> r.mark.value.1 == l.mark.value.1)
            && (l.limits.None? <==> r.limits.None?)
            && (l.limits.Some? ==> r.limits.value.1 == l.limits.value.1 && r.limits.value.2 == l.limits.value.2)
  {
    hide Reseeded;
    ReseededIs(w);
  }

  /** Announcing again what was announced announces the same. */
  lemma SeedsAreStable(w: Warm)
    requires Kept(w)
    ensures Seeds(Reseeded(w)) == Seeds(w)
  {
    hide Reseeded, Announced, Valued, Restamped, Plausible, Announcing;
    ReseededIs(w);
    var r := Reseeded(w);
    var keys := SortedKeys(w.limits.Keys);
    AnnouncingKeeps(w.limits, keys);
    AnnouncedBy(w.limits, keys);
    ListingUnique(Announcing(w.limits, keys), SortedKeys(r.limits.Keys), r.limits.Keys);
    SameAnnouncements(w.limits, r.limits, SortedKeys(r.limits.Keys));
  }

  // ---------------------------------------------------------------- replay

  /** One input line: blank or comment, unreadable, or a captured record with an uninterpreted body. */
  datatype Line<M> = Skip | Unreadable | Record(session: Option<string>, number: Option<nat>, ts: nat, body: M)

  datatype Output = Market(event: Event) | System(id: nat) | Silent | Private

  datatype Handled<P> = Handled(state: P, outputs: seq<Output>) | Failed

  /** Any deterministic processor: its start, what it does with a record, its ready books, and its final verdict. */
  datatype Feed<!P, !M> = Feed(start: P, handle: (P, M) -> Handled<P>, books: P -> seq<Event>, healthy: P -> bool)

  datatype Range = Range(first: nat, last: nat) {
    predicate Valid() {
      1 <= first <= last
    }

    predicate Contains(n: nat) {
      first <= n <= last
    }
  }

  datatype Announcement = Quoted(event: Event) | Reported(id: nat)

  datatype Timed = Timed(session: Option<string>, number: Option<nat>, ts: nat, what: Announcement)

  datatype Replaying<P> = Replaying(
    p: P,
    session: Option<Option<string>>,
    last: Option<nat>,
    sawLegacy: bool,
    selected: nat,
    firstNumber: Option<nat>, lastNumber: Option<nat>,
    firstTs: Option<nat>, lastTs: Option<nat>, maxTs: nat,
    seeded: bool,
    warm: Warm,
    seeds: seq<Timed>,
    events: seq<Timed>)

  ghost function Begin<P, M>(feed: Feed<P, M>): Replaying<P> {
    Replaying(feed.start, None, None, false, 0, None, None, None, None, 0, false, COLD, [], [])
  }

  predicate Selects(range: Option<Range>, number: Option<nat>) {
    range.None? || (number.Some? && range.value.Contains(number.value))
  }

  /** Past the end of the range: checked for session and numbering, and otherwise ignored. */
  predicate Past(range: Option<Range>, number: Option<nat>) {
    range.Some? && number.Some? && number.value > range.value.last
  }

  function Admit<P, M>(range: Option<Range>, st: Replaying<P>, line: Line<M>): Option<Replaying<P>>
    requires line.Record?
  {
    if st.session.Some? && st.session.value != line.session then None
    else
      var held := st.(session := Some(line.session));
      if line.number.Some? then
        if st.sawLegacy || line.number.value != (if st.last.Some? then st.last.value + 1 else 1) then None
        else Some(held.(last := line.number))
      else if st.last.Some? || range.Some? then None
      else Some(held.(sawLegacy := true))
  }

  function Select<P, M>(st: Replaying<P>, line: Line<M>): Replaying<P>
    requires line.Record?
  {
    st.(selected := st.selected + 1,
        firstNumber := if st.firstNumber.Some? then st.firstNumber else line.number,
        lastNumber := if line.number.Some? then line.number else st.lastNumber,
        firstTs := if st.firstTs.Some? then st.firstTs else Some(line.ts),
        lastTs := Some(line.ts),
        maxTs := Max(st.maxTs, line.ts))
  }

  function Stamp<M>(line: Line<M>, what: Announcement): Timed
    requires line.Record?
  {
    Timed(line.session, line.number, line.ts, what)
  }

  function StampAll<M>(line: Line<M>, events: seq<Event>): seq<Timed>
    requires line.Record?
  {
    seq(|events|, i requires 0 <= i < |events| => Stamp(line, Quoted(events[i])))
  }

  ghost function SeedIn<P, M>(feed: Feed<P, M>, range: Option<Range>, st: Replaying<P>, line: Line<M>): Replaying<P>
    requires line.Record?
  {
    if range.None? || st.seeded then st
    else st.(seeded := true, seeds := st.seeds + StampAll(line, Seeds(st.warm)) + StampAll(line, feed.books(st.p)))
  }

  /** The outputs of one record: announced if selected, remembered if before the range; private ones are refused. */
  function Emit<P, M>(range: Option<Range>, chosen: bool, st: Replaying<P>, line: Line<M>,
                      outputs: seq<Output>): Option<Replaying<P>>
    requires line.Record?
    decreases |outputs|
  {
    if outputs == [] then Some(st)
    else
      match outputs[0]
      case Private => None
      case Silent => Emit(range, chosen, st, line, outputs[1..])
      case Market(e) =>
        var now := if chosen then st.(events := st.events + [Stamp(line, Quoted(e))])
                   else if range.Some? then st.(warm := Observe(st.warm, e)) else st;
        Emit(range, chosen, now, line, outputs[1..])
      case System(id) =>
        Emit(range, chosen, if chosen then st.(events := st.events + [Stamp(line, Reported(id))]) else st, line,
             outputs[1..])
  }

  ghost function Process<P, M>(feed: Feed<P, M>, range: Option<Range>, st: Replaying<P>,
                               line: Line<M>): Option<Replaying<P>>
    requires line.Record?
  {
    var chosen := Selects(range, line.number);
    var ready := if chosen then SeedIn(feed, range, Select(st, line), line) else st;
    match feed.handle(ready.p, line.body)
    case Failed => None
    case Handled(p, outputs) => Emit(range, chosen, ready.(p := p), line, outputs)
  }

  ghost function StepLine<P, M>(feed: Feed<P, M>, range: Option<Range>, st: Replaying<P>,
                                line: Line<M>): Option<Replaying<P>> {
    match line
    case Skip => Some(st)
    case Unreadable => None
    case Record(_, _, _, _) =>
      match Admit(range, st, line)
      case None => None
      case Some(held) => if Past(range, line.number) then Some(held) else Process(feed, range, held, line)
  }

  ghost function RunLines<P, M>(feed: Feed<P, M>, range: Option<Range>, st: Replaying<P>,
                                lines: seq<Line<M>>): Option<Replaying<P>>
    decreases |lines|
  {
    if lines == [] then Some(st)
    else
      match StepLine(feed, range, st, lines[0])
      case None => None
      case Some(next) => RunLines(feed, range, next, lines[1..])
  }

  /** The range was fully there, something was announced, and the processor ended healthy. */
  predicate Complete<P, M>(feed: Feed<P, M>, range: Option<Range>, st: Replaying<P>) {
    && (range.Some? ==> && st.selected == range.value.last - range.value.first + 1
                        && st.firstNumber == Some(range.value.first) && st.lastNumber == Some(range.value.last))
    && |st.seeds| + |st.events| > 0
    && feed.healthy(st.p)
  }

  /** A successful replay, with the seeds it announced first and the events of the selected records. */
  ghost function Replay<P, M>(feed: Feed<P, M>, range: Option<Range>, lines: seq<Line<M>>): Option<Replaying<P>> {
    if range.Some? && !range.value.Valid() then None
    else
      match RunLines(feed, range, Begin(feed), lines)
      case None => None
      case Some(st) => if Complete(feed, range, st) then Some(st) else None
  }

  // ---------------------------------------------------------------- ranges compose

  function Emitted<M>(line: Line<M>, outputs: seq<Output>): seq<Timed>
    requires line.Record?
  {
    if outputs == [] then []
    else
      (match outputs[0]
       case Market(e) => [Stamp(line, Quoted(e))]
       case System(id) => [Stamp(line, Reported(id))]
       case _ => []) + Emitted(line, outputs[1..])
  }

  function MarketOutputs(outputs: seq<Output>): seq<Event> {
    if outputs == [] then [] else (if outputs[0].Market? then [outputs[0].event] else []) + MarketOutputs(outputs[1..])
  }

  function MarketEvents(events: seq<Timed>): seq<Event> {
    if events == [] then [] else (if events[0].what.Quoted? then [events[0].what.event] else []) + MarketEvents(events[1..])
  }

  lemma {:induction false} MarketsOfEmitted<M>(line: Line<M>, outputs: seq<Output>)
    requires line.Record?
    ensures MarketEvents(Emitted(line, outputs)) == MarketOutputs(outputs)
  {
    if outputs != [] {
      MarketsOfEmitted(line, outputs[1..]);
      var all, rest := Emitted(line, outputs), Emitted(line, outputs[1..]);
      if |all| > |rest| {
        assert all[1..] == rest;
      } else {
        assert all == rest;
      }
    }
  }

  lemma {:induction false} MarketsAppend(a: seq<Timed>, b: seq<Timed>)
    ensures MarketEvents(a + b) == MarketEvents(a) + MarketEvents(b)
  {
    if a == [] {
      assert a + b == b;
    } else {
      MarketsAppend(a[1..], b);
      var all := a + b;
      var head := if a[0].what.Quoted? then [a[0].what.event] else [];
      assert all[0] == a[0] && all[1..] == a[1..] + b;
      AppendAssociates(head, MarketEvents(a[1..]), MarketEvents(b));
    }
  }

  /** A selected record appends its announcements and nothing else; one before the range is only observed. */
  lemma {:induction false} EmitIs<P, M>(range: Option<Range>, chosen: bool, st: Replaying<P>, line: Line<M>,
                                        outputs: seq<Output>)
    requires line.Record? && Emit(range, chosen, st, line, outputs).Some?
    ensures var r := Emit(range, chosen, st, line, outputs).value;
            if chosen then r == st.(events := st.events + Emitted(line, outputs))
            else if range.Some? then r == st.(warm := ObserveAll(st.warm, MarketOutputs(outputs)))
            else r == st
    decreases |outputs|
  {
    hide Observe, Stamp;
    if outputs == [] {
      assert st.events + [] == st.events;
    } else {
      var now :=
        match outputs[0]
        case Market(e) =>
          if chosen then st.(events := st.events + [Stamp(line, Quoted(e))])
          else if range.Some? then st.(warm := Observe(st.warm, e)) else st
        case System(id) => if chosen then st.(events := st.events + [Stamp(line, Reported(id))]) else st
        case _ => st;
      EmitIs(range, chosen, now, line, outputs[1..]);
      assert outputs[0].Market? ==> MarketOutputs(outputs)[0] == outputs[0].event
                                    && MarketOutputs(outputs)[1..] == MarketOutputs(outputs[1..]);
      assert !outputs[0].Market? ==> MarketOutputs(outputs) == MarketOutputs(outputs[1..]);
      if chosen {
        var head := Emitted(line, outputs)[..|Emitted(line, outputs)| - |Emitted(line, outputs[1..])|];
        assert now.events == st.events + head;
        AppendAssociates(st.events, head, Emitted(line, outputs[1..]));
      }
    }
  }

  function Number<P>(st: Replaying<P>): nat {
    if st.last.Some? then st.last.value else 0
  }

  /** What processing one record does to the processor and to the announcements. */
  lemma ProcessIs<P, M>(feed: Feed<P, M>, range: Option<Range>, st: Replaying<P>, line: Line<M>)
    requires line.Record? && Process(feed, range, st, line).Some?
    ensures var r := Process(feed, range, st, line).value;
            var h := feed.handle(st.p, line.body);
            && h.Handled? && r.p == h.state
            && r.session == st.session && r.last == st.last && r.sawLegacy == st.sawLegacy
            && (if Selects(range, line.number) then
                  && r.events == st.events + Emitted(line, h.outputs) && r.warm == st.warm
                  && (range.Some? ==> r.seeded && r.seeds == SeedIn(feed, range, st, line).seeds)
                else
                  && r.events == st.events && r.seeds == st.seeds && r.seeded == st.seeded
                  && (range.Some? ==> r.warm == ObserveAll(st.warm, MarketOutputs(h.outputs))))
  {
    hide Emit, Emitted, Seeds;
    var chosen := Selects(range, line.number);
    var ready := if chosen then SeedIn(feed, range, Select(st, line), line) else st;
    var h := feed.handle(ready.p, line.body);
    EmitIs(range, chosen, ready.(p := h.state), line, h.outputs);
  }

  lemma {:induction false} UnstampAll<M>(line: Line<M>, events: seq<Event>)
    requires line.Record?
    ensures MarketEvents(StampAll(line, events)) == events
  {
    if events != [] {
      UnstampAll(line, events[1..]);
      assert StampAll(line, events)[1..] == StampAll(line, events[1..]);
    }
  }

  lemma FirstSeeds<P, M>(feed: Feed<P, M>, range: Range, st: Replaying<P>, line: Line<M>)
    requires line.Record? && !st.seeded && st.seeds == []
    ensures MarketEvents(SeedIn(feed, Some(range), st, line).seeds) == Seeds(st.warm) + feed.books(st.p)
  {
    hide Seeds, MarketEvents;
    var x, y := StampAll(line, Seeds(st.warm)), StampAll(line, feed.books(st.p));
    UnstampAll(line, Seeds(st.warm));
    UnstampAll(line, feed.books(st.p));
    MarketsAppend(x, y);
    assert [] + x + y == x + y;
  }

  /** The events of the records numbered `lo` to `hi`. */
  function Between(events: seq<Timed>, lo: nat, hi: nat): seq<Timed> {
    if events == [] then []
    else (if events[0].number.Some? && lo <= events[0].number.value <= hi then [events[0]] else [])
         + Between(events[1..], lo, hi)
  }

  lemma {:induction false} BetweenAppend(a: seq<Timed>, b: seq<Timed>, lo: nat, hi: nat)
    ensures Between(a + b, lo, hi) == Between(a, lo, hi) + Between(b, lo, hi)
  {
    if a == [] {
      assert a + b == b;
    } else {
      BetweenAppend(a[1..], b, lo, hi);
      assert (a + b)[0] == a[0] && (a + b)[1..] == a[1..] + b;
      AppendAssociates(if a[0].number.Some? && lo <= a[0].number.value <= hi then [a[0]] else [],
                       Between(a[1..], lo, hi), Between(b, lo, hi));
    }
  }

  /** Every event has this record's number. */
  predicate AllFrom(events: seq<Timed>, number: Option<nat>) {
    forall k :: 0 <= k < |events| ==> events[k].number == number
  }

  lemma {:induction false} EmittedFrom<M>(line: Line<M>, outputs: seq<Output>)
    requires line.Record?
    ensures AllFrom(Emitted(line, outputs), line.number)
  {
    if outputs != [] {
      EmittedFrom(line, outputs[1..]);
    }
  }

  lemma {:induction false} BetweenOfOne(events: seq<Timed>, m: nat, lo: nat, hi: nat)
    requires AllFrom(events, Some(m))
    ensures Between(events, lo, hi) == if lo <= m <= hi then events else []
  {
    if events != [] {
      BetweenOfOne(events[1..], m, lo, hi);
      assert events == [events[0]] + events[1..];
    }
  }

  /** What a record numbered `m` adds to the events between `lo` and `hi`. */
  lemma BetweenEmitted<M>(events: seq<Timed>, line: Line<M>, outputs: seq<Output>, lo: nat, hi: nat)
    requires line.Record? && line.number.Some?
    ensures Between(events + Emitted(line, outputs), lo, hi)
            == Between(events, lo, hi) + (if lo <= line.number.value <= hi then Emitted(line, outputs) else [])
  {
    hide Emitted, Between;
    EmittedFrom(line, outputs);
    BetweenAppend(events, Emitted(line, outputs), lo, hi);
    BetweenOfOne(Emitted(line, outputs), line.number.value, lo, hi);
  }

  /** The processor after the first `m` records of `lines`. */
  function AfterRecords<P, M>(feed: Feed<P, M>, p: P, lines: seq<Line<M>>, m: nat): P {
    if m == 0 || lines == [] then p
    else if !lines[0].Record? then AfterRecords(feed, p, lines[1..], m)
    else
      match feed.handle(p, lines[0].body)
      case Handled(q, _) => AfterRecords(feed, q, lines[1..], m - 1)
      case Failed => p
  }

  /** What the records before `first` leave: the observed market, and the books of the processor there. */
  ghost function SeedsBefore<P, M>(feed: Feed<P, M>, events: seq<Timed>, first: nat, before: P): seq<Event> {
    Seeds(ObserveAll(COLD, MarketEvents(Between(events, 1, if first > 0 then first - 1 else 0)))) + feed.books(before)
  }

  /** The whole replay and the replay of one range, at the same line. */
  ghost predicate InStep<P, M>(feed: Feed<P, M>, g: Range, before: P, after: P, full: Replaying<P>, r: Replaying<P>) {
    && full.session == r.session && full.last == r.last && !full.sawLegacy && !r.sawLegacy
    && r.events == Between(full.events, g.first, g.last)
    && (Number(full) < g.first ==>
          && !r.seeded && r.seeds == [] && r.warm == ObserveAll(COLD, MarketEvents(full.events))
          && Between(full.events, 1, g.first - 1) == full.events)
    && (Number(full) >= g.first ==>
          && r.seeded && AllFrom(r.seeds, Some(g.first))
          && MarketEvents(r.seeds) == SeedsBefore(feed, full.events, g.first, before))
    && r.p == if Number(full) <= g.last then full.p else after
  }

  /** `before` and `after` are the processor before the range and after it. */
  ghost predicate Ahead<P, M>(feed: Feed<P, M>, g: Range, before: P, after: P, full: Replaying<P>,
                              lines: seq<Line<M>>) {
    && (Number(full) < g.first ==> before == AfterRecords(feed, full.p, lines, g.first - 1 - Number(full)))
    && (Number(full) <= g.last ==> after == AfterRecords(feed, full.p, lines, g.last - Number(full)))
  }

  /** Reaching the first record of the range announces the seeds; later records do not. */
  lemma SeedStep<P, M>(feed: Feed<P, M>, g: Range, r: Replaying<P>, line: Line<M>)
    requires line.Record? && Admit(Some(g), r, line).Some?
    ensures var held := Admit(Some(g), r, line).value;
            && (r.seeded ==> SeedIn(feed, Some(g), held, line).seeds == r.seeds)
            && (!r.seeded && r.seeds == [] ==>
                  && MarketEvents(SeedIn(feed, Some(g), held, line).seeds) == Seeds(r.warm) + feed.books(r.p)
                  && AllFrom(SeedIn(feed, Some(g), held, line).seeds, line.number))
  {
    hide Seeds, MarketEvents;
    if !r.seeded && r.seeds == [] {
      FirstSeeds(feed, g, Admit(Some(g), r, line).value, line);
    }
  }

  predicate Public(outputs: seq<Output>) {
    forall i :: 0 <= i < |outputs| ==> !outputs[i].Private?
  }

  lemma {:induction false} EmitSucceeds<P, M>(range: Option<Range>, chosen: bool, st: Replaying<P>, line: Line<M>,
                                              outputs: seq<Output>)
    requires line.Record?
    ensures Emit(range, chosen, st, line, outputs).Some? <==> Public(outputs)
    decreases |outputs|
  {
    hide Observe, Stamp;
    if outputs != [] {
      var now :=
        match outputs[0]
        case Market(e) =>
          if chosen then st.(events := st.events + [Stamp(line, Quoted(e))])
          else if range.Some? then st.(warm := Observe(st.warm, e)) else st
        case System(id) => if chosen then st.(events := st.events + [Stamp(line, Reported(id))]) else st
        case _ => st;
      EmitSucceeds(range, chosen, now, line, outputs[1..]);
      assert Public(outputs) <==> !outputs[0].Private? && Public(outputs[1..]);
    }
  }

  /** Whether a record can be processed depends only on the processor. */
  lemma ProcessSucceeds<P, M>(feed: Feed<P, M>, range: Option<Range>, st: Replaying<P>, line: Line<M>)
    requires line.Record?
    ensures Process(feed, range, st, line).Some?
            <==> feed.handle(st.p, line.body).Handled? && Public(feed.handle(st.p, line.body).outputs)
  {
    hide Emit, Seeds, Public;
    var chosen := Selects(range, line.number);
    var ready := if chosen then SeedIn(feed, range, Select(st, line), line) else st;
    var h := feed.handle(ready.p, line.body);
    if h.Handled? {
      EmitSucceeds(range, chosen, ready.(p := h.state), line, h.outputs);
    }
  }

  lemma StepSucceeds<P, M>(feed: Feed<P, M>, g: Range, before: P, after: P, full: Replaying<P>, r: Replaying<P>,
                           line: Line<M>)
    requires g.Valid() && InStep(feed, g, before, after, full, r)
    requires StepLine(feed, None, full, line).Some? && (line.Record? ==> line.number.Some?)
    ensures StepLine(feed, Some(g), r, line).Some?
  {
    hide Process, ObserveAll, MarketEvents, Seeds, Public, Between;
    if line.Record? {
      ProcessSucceeds(feed, None, Admit(None, full, line).value, line);
      ProcessSucceeds(feed, Some(g), Admit(Some(g), r, line).value, line);
    }
  }

  /** A record before the range is observed. */
  lemma EarlyInStep<P, M>(feed: Feed<P, M>, g: Range, before: P, after: P, full: Replaying<P>, r: Replaying<P>,
                          line: Line<M>)
    requires g.Valid() && InStep(feed, g, before, after, full, r) && line.Record? && line.number.Some?
             && line.number.value < g.first
    requires StepLine(feed, None, full, line).Some? && StepLine(feed, Some(g), r, line).Some?
    ensures InStep(feed, g, before, after, StepLine(feed, None, full, line).value, StepLine(feed, Some(g), r, line).value)
  {
    hide Process, Emitted, Between, ObserveAll, MarketEvents, MarketOutputs, Seeds, SeedIn;
    ProcessIs(feed, None, Admit(None, full, line).value, line);
    var outputs := feed.handle(full.p, line.body).outputs;
    BetweenEmitted(full.events, line, outputs, g.first, g.last);
    BetweenEmitted(full.events, line, outputs, 1, g.first - 1);
    ProcessIs(feed, Some(g), Admit(Some(g), r, line).value, line);
    MarketsOfEmitted(line, outputs);
    MarketsAppend(full.events, Emitted(line, outputs));
    ObserveAppend(COLD, MarketEvents(full.events), MarketOutputs(outputs));
    assert r.events + [] == r.events;
  }

  /** A record of the range is announced, after the seeds if it is the first. */
  lemma InsideInStep<P, M>(feed: Feed<P, M>, g: Range, before: P, after: P, full: Replaying<P>, r: Replaying<P>,
                           line: Line<M>)
    requires g.Valid() && InStep(feed, g, before, after, full, r) && line.Record? && line.number.Some?
             && g.Contains(line.number.value)
    requires StepLine(feed, None, full, line).Some? && StepLine(feed, Some(g), r, line).Some?
    requires Number(full) == g.first - 1 ==> full.p == before
    ensures InStep(feed, g, before, after, StepLine(feed, None, full, line).value, StepLine(feed, Some(g), r, line).value)
  {
    hide Process, Emitted, Between, ObserveAll, MarketEvents, MarketOutputs, Seeds, SeedIn;
    ProcessIs(feed, None, Admit(None, full, line).value, line);
    var outputs := feed.handle(full.p, line.body).outputs;
    BetweenEmitted(full.events, line, outputs, g.first, g.last);
    BetweenEmitted(full.events, line, outputs, 1, g.first - 1);
    ProcessIs(feed, Some(g), Admit(Some(g), r, line).value, line);
    SeedStep(feed, g, r, line);
    var all := Between(full.events, 1, g.first - 1);
    assert all + [] == all;
  }

  /** A record past the range changes nothing there. */
  lemma PastInStep<P, M>(feed: Feed<P, M>, g: Range, before: P, after: P, full: Replaying<P>, r: Replaying<P>,
                         line: Line<M>)
    requires g.Valid() && InStep(feed, g, before, after, full, r) && line.Record? && line.number.Some?
             && line.number.value > g.last
    requires StepLine(feed, None, full, line).Some? && StepLine(feed, Some(g), r, line).Some?
    requires Number(full) == g.last ==> full.p == after
    ensures InStep(feed, g, before, after, StepLine(feed, None, full, line).value, StepLine(feed, Some(g), r, line).value)
  {
    hide Process, Emitted, Between, ObserveAll, MarketEvents, MarketOutputs, Seeds, SeedIn;
    ProcessIs(feed, None, Admit(None, full, line).value, line);
    var outputs := feed.handle(full.p, line.body).outputs;
    BetweenEmitted(full.events, line, outputs, g.first, g.last);
    BetweenEmitted(full.events, line, outputs, 1, g.first - 1);
    var all := Between(full.events, 1, g.first - 1);
    assert all + [] == all && r.events + [] == r.events;
  }

  lemma StepInStep<P, M>(feed: Feed<P, M>, g: Range, before: P, after: P, full: Replaying<P>, r: Replaying<P>,
                         line: Line<M>)
    requires g.Valid() && InStep(feed, g, before, after, full, r)
    requires Number(full) == g.first - 1 ==> full.p == before
    requires Number(full) == g.last ==> full.p == after
    requires StepLine(feed, None, full, line).Some? && (line.Record? ==> line.number.Some?)
    ensures StepLine(feed, Some(g), r, line).Some?
    ensures InStep(feed, g, before, after, StepLine(feed, None, full, line).value, StepLine(feed, Some(g), r, line).value)
  {
    StepSucceeds(feed, g, before, after, full, r, line);
    hide InStep, Admit, Process;
    if line.Record? {
      if line.number.value < g.first {
        EarlyInStep(feed, g, before, after, full, r, line);
      } else if line.number.value <= g.last {
        InsideInStep(feed, g, before, after, full, r, line);
      } else {
        PastInStep(feed, g, before, after, full, r, line);
      }
    }
  }

  lemma StepAhead<P, M>(feed: Feed<P, M>, g: Range, before: P, after: P, full: Replaying<P>, lines: seq<Line<M>>)
    requires g.Valid() && lines != [] && Ahead(feed, g, before, after, full, lines)
             && StepLine(feed, None, full, lines[0]).Some?
    requires lines[0].Record? ==> lines[0].number.Some?
    ensures Ahead(feed, g, before, after, StepLine(feed, None, full, lines[0]).value, lines[1..])
    ensures Number(full) == g.first - 1 ==> full.p == before
    ensures Number(full) == g.last ==> full.p == after
  {
    hide Process, Emitted, MarketOutputs, ObserveAll, SeedIn, Seeds;
    if lines[0].Record? {
      ProcessIs(feed, None, Admit(None, full, lines[0]).value, lines[0]);
    }
  }

  lemma {:induction false} NumbersGrow<P, M>(feed: Feed<P, M>, st: Replaying<P>, lines: seq<Line<M>>)
    requires RunLines(feed, None, st, lines).Some?
    ensures Number(st) <= Number(RunLines(feed, None, st, lines).value)
    decreases |lines|
  {
    if lines != [] {
      hide Process;
      var next := StepLine(feed, None, st, lines[0]).value;
      if lines[0].Record? {
        ProcessIs(feed, None, Admit(None, st, lines[0]).value, lines[0]);
      }
      NumbersGrow(feed, next, lines[1..]);
    }
  }

  lemma {:induction false} LegacyStays<P, M>(feed: Feed<P, M>, st: Replaying<P>, lines: seq<Line<M>>)
    requires RunLines(feed, None, st, lines).Some? && st.sawLegacy && st.last.None?
    ensures RunLines(feed, None, st, lines).value.last.None?
    decreases |lines|
  {
    hide Process;
    if lines != [] {
      if lines[0].Record? {
        ProcessIs(feed, None, Admit(None, st, lines[0]).value, lines[0]);
      }
      LegacyStays(feed, StepLine(feed, None, st, lines[0]).value, lines[1..]);
    }
  }

  /** In a capture that ends with a number every record is numbered, up to that number. */
  lemma HeadNumbered<P, M>(feed: Feed<P, M>, n: nat, st: Replaying<P>, lines: seq<Line<M>>)
    requires lines != [] && RunLines(feed, None, st, lines).Some?
             && RunLines(feed, None, st, lines).value.last == Some(n)
    ensures lines[0].Record? ==> lines[0].number.Some? && lines[0].number.value <= n
  {
    hide Process;
    if lines[0].Record? {
      ProcessIs(feed, None, Admit(None, st, lines[0]).value, lines[0]);
      if lines[0].number.None? {
        LegacyStays(feed, StepLine(feed, None, st, lines[0]).value, lines[1..]);
      } else {
        NumbersGrow(feed, StepLine(feed, None, st, lines[0]).value, lines[1..]);
      }
    }
  }

  lemma {:induction false} RunInStep<P, M>(feed: Feed<P, M>, g: Range, n: nat, before: P, after: P, full: Replaying<P>,
                                           r: Replaying<P>, lines: seq<Line<M>>)
    requires g.Valid() && InStep(feed, g, before, after, full, r) && Ahead(feed, g, before, after, full, lines)
    requires RunLines(feed, None, full, lines).Some? && RunLines(feed, None, full, lines).value.last == Some(n)
    ensures RunLines(feed, Some(g), r, lines).Some?
    ensures InStep(feed, g, before, after, RunLines(feed, None, full, lines).value, RunLines(feed, Some(g), r, lines).value)
    ensures n == g.last ==> RunLines(feed, None, full, lines).value.p == after
    decreases |lines|
  {
    hide InStep, StepLine;
    if lines != [] {
      hide Ahead;
      HeadNumbered(feed, n, full, lines);
      StepAhead(feed, g, before, after, full, lines);
      StepInStep(feed, g, before, after, full, r, lines[0]);
      RunInStep(feed, g, n, before, after, StepLine(feed, None, full, lines[0]).value,
                StepLine(feed, Some(g), r, lines[0]).value, lines[1..]);
    }
  }

  /** After `m` records, what has been selected is the part of the range up to `m`. */
  predicate Selected<P>(range: Range, st: Replaying<P>, m: nat) {
    if m < range.first then st.selected == 0 && st.firstNumber.None? && st.lastNumber.None?
    else
      && st.selected == Min(m, range.last) - range.first + 1
      && st.firstNumber == Some(range.first) && st.lastNumber == Some(Min(m, range.last))
  }

  lemma StepSelected<P, M>(feed: Feed<P, M>, range: Range, st: Replaying<P>, line: Line<M>)
    requires range.Valid() && Selected(range, st, Number(st)) && StepLine(feed, Some(range), st, line).Some?
    ensures var next := StepLine(feed, Some(range), st, line).value; Selected(range, next, Number(next))
  {
    hide Emit, Emitted, Seeds, ObserveAll;
    if line.Record? && !Past(Some(range), line.number) {
      var held := Admit(Some(range), st, line).value;
      var chosen := Selects(Some(range), line.number);
      var ready := if chosen then SeedIn(feed, Some(range), Select(held, line), line) else held;
      var h := feed.handle(ready.p, line.body);
      EmitIs(Some(range), chosen, ready.(p := h.state), line, h.outputs);
    }
  }

  /** A range was fully there exactly when the capture reaches its end. */
  lemma {:induction false} RunSelected<P, M>(feed: Feed<P, M>, range: Range, st: Replaying<P>, lines: seq<Line<M>>)
    requires range.Valid() && Selected(range, st, Number(st)) && RunLines(feed, Some(range), st, lines).Some?
    ensures var done := RunLines(feed, Some(range), st, lines).value; Selected(range, done, Number(done))
    decreases |lines|
  {
    hide Selected, StepLine;
    if lines != [] {
      StepSelected(feed, range, st, lines[0]);
      RunSelected(feed, range, StepLine(feed, Some(range), st, lines[0]).value, lines[1..]);
    }
  }

  /**
   Replaying any range of a numbered capture announces exactly the whole replay's events of those records, after the
   latest index prices, funding rates and limits announced before them and the books ready there. It succeeds exactly
   when it announces something and the processor is healthy at its end.
   */
  lemma {:induction false} RangeReplay<P, M>(feed: Feed<P, M>, lines: seq<Line<M>>, g: Range, n: nat)
    requires g.Valid() && g.last <= n
    requires Replay(feed, None, lines).Some? && Replay(feed, None, lines).value.last == Some(n)
    ensures RunLines(feed, Some(g), Begin(feed), lines).Some?
    ensures var whole := Replay(feed, None, lines).value;
            var r := RunLines(feed, Some(g), Begin(feed), lines).value;
            && r.events == Between(whole.events, g.first, g.last)
            && AllFrom(r.seeds, Some(g.first))
            && MarketEvents(r.seeds)
               == LatestSeeds(MarketEvents(Between(whole.events, 1, g.first - 1)))
                  + feed.books(AfterRecords(feed, feed.start, lines, g.first - 1))
            && r.p == AfterRecords(feed, feed.start, lines, g.last)
            && (g.last == n ==> feed.healthy(r.p))
            && Replay(feed, Some(g), lines) == (if |r.seeds| + |r.events| > 0 && feed.healthy(r.p) then Some(r) else None)
  {
    hide RunLines, Seeds;
    var before, after := AfterRecords(feed, feed.start, lines, g.first - 1), AfterRecords(feed, feed.start, lines, g.last);
    assert InStep(feed, g, before, after, Begin(feed), Begin(feed)) && Ahead(feed, g, before, after, Begin(feed), lines);
    hide AfterRecords, Between, MarketEvents, ObserveAll, LatestSeeds;
    RunInStep(feed, g, n, before, after, Begin(feed), Begin(feed), lines);
    RunSelected(feed, g, Begin(feed), lines);
    SeedsAreLatest(MarketEvents(Between(Replay(feed, None, lines).value.events, 1, g.first - 1)));
  }

  // ---------------------------------------------------------------- which captures are accepted

  /** The records of the input, in order. */
  function Records<M>(lines: seq<Line<M>>): (r: seq<Line<M>>)
    ensures forall k :: 0 <= k < |r| ==> r[k].Record?
  {
    if lines == [] then [] else (if lines[0].Record? then [lines[0]] else []) + Records(lines[1..])
  }

  predicate Readable<M>(lines: seq<Line<M>>) {
    forall k :: 0 <= k < |lines| ==> !lines[k].Unreadable?
  }

  /** One session, continuing the one already seen. */
  predicate OneSession<M>(session: Option<Option<string>>, records: seq<Line<M>>)
    requires forall k :: 0 <= k < |records| ==> records[k].Record?
  {
    && (session.Some? ==> forall k :: 0 <= k < |records| ==> records[k].session == session.value)
    && (forall j, k :: 0 <= j < k < |records| ==> records[j].session == records[k].session)
  }

  /** Numbered without a gap from the last number on. */
  predicate Consecutive<M>(last: nat, records: seq<Line<M>>)
    requires forall k :: 0 <= k < |records| ==> records[k].Record?
  {
    forall k :: 0 <= k < |records| ==> records[k].number == Some(last + k + 1)
  }

  predicate Unnumbered<M>(records: seq<Line<M>>)
    requires forall k :: 0 <= k < |records| ==> records[k].Record?
  {
    forall k :: 0 <= k < |records| ==> records[k].number.None?
  }

  /** Records that may follow a state: numbered on, or for a whole replay all without numbers. */
  predicate MayFollow<P, M>(range: Option<Range>, st: Replaying<P>, records: seq<Line<M>>)
    requires forall k :: 0 <= k < |records| ==> records[k].Record?
  {
    && OneSession(st.session, records)
    && (records == [] || (!st.sawLegacy && Consecutive(Number(st), records))
        || (range.None? && st.last.None? && Unnumbered(records)))
  }

  /** The processor handles every record up to the end of the range and announces nothing private. */
  ghost predicate Handles<P, M>(feed: Feed<P, M>, range: Option<Range>, p: P, records: seq<Line<M>>)
    requires forall k :: 0 <= k < |records| ==> records[k].Record?
    decreases |records|
  {
    if records == [] then true
    else if Past(range, records[0].number) then Handles(feed, range, p, records[1..])
    else
      var h := feed.handle(p, records[0].body);
      h.Handled? && Public(h.outputs) && Handles(feed, range, h.state, records[1..])
  }

  lemma SessionHead<M>(session: Option<Option<string>>, records: seq<Line<M>>)
    requires (forall k :: 0 <= k < |records| ==> records[k].Record?) && records != []
    ensures OneSession(session, records) <==>
            (session.Some? ==> records[0].session == session.value) && OneSession(Some(records[0].session), records[1..])
  {
    if OneSession(Some(records[0].session), records[1..]) {
      forall j, k | 0 <= j < k < |records|
        ensures records[j].session == records[k].session == records[0].session
      {
        assert records[k] == records[1..][k - 1];
        assert j > 0 ==> records[j] == records[1..][j - 1];
      }
    }
  }

  lemma NumbersHead<M>(last: nat, records: seq<Line<M>>)
    requires (forall k :: 0 <= k < |records| ==> records[k].Record?) && records != []
    ensures Consecutive(last, records) <==> records[0].number == Some(last + 1) && Consecutive(last + 1, records[1..])
    ensures Unnumbered(records) <==> records[0].number.None? && Unnumbered(records[1..])
  {
    assert forall k :: 1 <= k < |records| ==> records[k] == records[1..][k - 1];
  }

  lemma FollowsHead<P, M>(range: Option<Range>, st: Replaying<P>, records: seq<Line<M>>)
    requires (forall k :: 0 <= k < |records| ==> records[k].Record?) && records != []
    requires st.sawLegacy ==> st.last.None?
    ensures MayFollow(range, st, records) <==>
            && Admit(range, st, records[0]).Some?
            && MayFollow(range, Admit(range, st, records[0]).value, records[1..])
  {
    hide OneSession, Consecutive, Unnumbered;
    SessionHead(st.session, records);
    NumbersHead(Number(st), records);
    NothingNumbered(Number(st) + 1, records[1..]);
  }

  lemma NothingNumbered<M>(last: nat, records: seq<Line<M>>)
    requires forall k :: 0 <= k < |records| ==> records[k].Record?
    ensures records == [] ==> Consecutive(last, records) && Unnumbered(records)
  {
  }

  lemma {:induction false} ReadableHead<M>(lines: seq<Line<M>>)
    requires lines != []
    ensures Readable(lines) <==> !lines[0].Unreadable? && Readable(lines[1..])
  {
    assert forall k :: 1 <= k < |lines| ==> lines[k] == lines[1..][k - 1];
  }

  /** What one admitted record leaves for the records after it. */
  lemma AdmittedThen<P, M>(feed: Feed<P, M>, range: Option<Range>, st: Replaying<P>, line: Line<M>, rest: seq<Line<M>>)
    requires line.Record? && (forall k :: 0 <= k < |rest| ==> rest[k].Record?) && (st.sawLegacy ==> st.last.None?)
    requires StepLine(feed, range, st, line).Some?
    ensures var (held, next) := (Admit(range, st, line).value, StepLine(feed, range, st, line).value);
            && (next.sawLegacy ==> next.last.None?)
            && (MayFollow(range, next, rest) <==> MayFollow(range, held, rest))
            && next.p == if Past(range, line.number) then st.p else feed.handle(st.p, line.body).state
  {
    hide Process, Emitted, ObserveAll, MarketOutputs, Seeds, OneSession, Consecutive, Unnumbered;
    if !Past(range, line.number) {
      ProcessIs(feed, range, Admit(range, st, line).value, line);
    }
  }

  /**
   The input loop succeeds exactly when every line is readable, the records are of one session and either numbered
   without a gap or, for a whole replay, all unnumbered, and the processor handles all of them up to the end.
   */
  lemma {:induction false} RunsIff<P, M>(feed: Feed<P, M>, range: Option<Range>, st: Replaying<P>, lines: seq<Line<M>>)
    requires st.sawLegacy ==> st.last.None?
    ensures RunLines(feed, range, st, lines).Some? <==>
            Readable(lines) && MayFollow(range, st, Records(lines)) && Handles(feed, range, st.p, Records(lines))
    decreases |lines|
  {
    hide StepLine, MayFollow;
    if lines == [] {
      NoneFollow(range, st, Records(lines));
    } else {
      ReadableHead(lines);
      if lines[0].Record? {
        RecordRuns(feed, range, st, lines);
        if StepLine(feed, range, st, lines[0]).Some? {
          RunsIff(feed, range, StepLine(feed, range, st, lines[0]).value, lines[1..]);
        }
      } else {
        SkippedRuns(feed, range, st, lines);
        RunsIff(feed, range, st, lines[1..]);
      }
    }
  }

  lemma NoneFollow<P, M>(range: Option<Range>, st: Replaying<P>, records: seq<Line<M>>)
    requires records == []
    ensures MayFollow(range, st, records)
  {
  }

  lemma SkippedRuns<P, M>(feed: Feed<P, M>, range: Option<Range>, st: Replaying<P>, lines: seq<Line<M>>)
    requires lines != [] && !lines[0].Record?
    ensures Records(lines) == Records(lines[1..])
    ensures StepLine(feed, range, st, lines[0]) == if lines[0].Skip? then Some(st) else None
  {
  }

  lemma RecordRuns<P, M>(feed: Feed<P, M>, range: Option<Range>, st: Replaying<P>, lines: seq<Line<M>>)
    requires lines != [] && lines[0].Record? && (st.sawLegacy ==> st.last.None?)
    ensures var (all, rest, step) := (Records(lines), Records(lines[1..]), StepLine(feed, range, st, lines[0]));
            && (step.None? ==> !(MayFollow(range, st, all) && Handles(feed, range, st.p, all)))
            && (step.Some? ==>
                  && (step.value.sawLegacy ==> step.value.last.None?)
                  && (MayFollow(range, st, all) <==> MayFollow(range, step.value, rest))
                  && (Handles(feed, range, st.p, all) <==> Handles(feed, range, step.value.p, rest)))
  {
    hide Process, MayFollow, Public;
    var all, rest := Records(lines), Records(lines[1..]);
    assert all[0] == lines[0] && all[1..] == rest;
    FollowsHead(range, st, all);
    if Admit(range, st, lines[0]).Some? {
      ProcessSucceeds(feed, range, Admit(range, st, lines[0]).value, lines[0]);
    }
    if StepLine(feed, range, st, lines[0]).Some? {
      AdmittedThen(feed, range, st, lines[0], rest);
    }
  }

  /** So a whole or ranged replay that succeeds read one session, numbered without a gap or not at all. */
  lemma {:induction false} ReplayAccepts<P, M>(feed: Feed<P, M>, range: Option<Range>, lines: seq<Line<M>>)
    requires range.Some? ==> range.value.Valid()
    ensures RunLines(feed, range, Begin(feed), lines).Some? <==>
            && Readable(lines) && Handles(feed, range, feed.start, Records(lines))
            && OneSession(None, Records(lines))
            && (Consecutive(0, Records(lines)) || (range.None? && Unnumbered(Records(lines))))
  {
    hide RunLines, Handles, OneSession;
    RunsIff(feed, range, Begin(feed), lines);
  }

  /** What the processor announces over all records, each announcement stamped with its record. */
  ghost function AllEmitted<P, M>(feed: Feed<P, M>, p: P, records: seq<Line<M>>): seq<Timed>
    requires forall k :: 0 <= k < |records| ==> records[k].Record?
    decreases |records|
  {
    if records == [] then []
    else
      match feed.handle(p, records[0].body)
      case Failed => []
      case Handled(q, outputs) => Emitted(records[0], outputs) + AllEmitted(feed, q, records[1..])
  }

  lemma {:induction false} RunEmits<P, M>(feed: Feed<P, M>, st: Replaying<P>, lines: seq<Line<M>>)
    requires RunLines(feed, None, st, lines).Some?
    ensures RunLines(feed, None, st, lines).value.events == st.events + AllEmitted(feed, st.p, Records(lines))
    decreases |lines|
  {
    hide Process, Emitted;
    if lines == [] {
      assert st.events + [] == st.events;
    } else {
      var next := StepLine(feed, None, st, lines[0]).value;
      RunEmits(feed, next, lines[1..]);
      if lines[0].Record? {
        ProcessIs(feed, None, Admit(None, st, lines[0]).value, lines[0]);
        assert Records(lines)[0] == lines[0] && Records(lines)[1..] == Records(lines[1..]);
        AppendAssociates(st.events, Emitted(lines[0], feed.handle(st.p, lines[0].body).outputs),
                         AllEmitted(feed, next.p, Records(lines[1..])));
      } else {
        SkippedRuns(feed, None, st, lines);
      }
    }
  }

  /** A whole replay announces exactly what its processor does over all records, in order. */
  lemma {:induction false} WholeReplay<P, M>(feed: Feed<P, M>, lines: seq<Line<M>>)
    requires Replay(feed, None, lines).Some?
    ensures Replay(feed, None, lines).value.events == AllEmitted(feed, feed.start, Records(lines))
    ensures Replay(feed, None, lines).value.seeds == []
  {
    hide RunLines, AllEmitted;
    RunEmits(feed, Begin(feed), lines);
    WholeUnseeded(feed, Begin(feed), lines);
    var all := AllEmitted(feed, feed.start, Records(lines));
    assert [] + all == all;
  }

  lemma {:induction false} WholeUnseeded<P, M>(feed: Feed<P, M>, st: Replaying<P>, lines: seq<Line<M>>)
    requires RunLines(feed, None, st, lines).Some? && st.seeds == []
    ensures RunLines(feed, None, st, lines).value.seeds == []
    decreases |lines|
  {
    hide Emit, Emitted, Seeds;
    if lines != [] {
      if lines[0].Record? {
        var held := Select(Admit(None, st, lines[0]).value, lines[0]);
        var h := feed.handle(held.p, lines[0].body);
        EmitIs(None, true, held.(p := h.state), lines[0], h.outputs);
      }
      WholeUnseeded(feed, StepLine(feed, None, st, lines[0]).value, lines[1..]);
    }
  }

  /** The times of the records that a replay selects. */
  function SelectedTimes<M>(range: Option<Range>, lines: seq<Line<M>>): seq<nat> {
    if lines == [] then []
    else (if lines[0].Record? && Selects(range, lines[0].number) then [lines[0].ts] else [])
         + SelectedTimes(range, lines[1..])
  }

  /** First, last and greatest time of what was selected so far. */
  predicate TimesReported<P>(st: Replaying<P>, times: seq<nat>) {
    && st.selected == |times|
    && (if times == [] then st.firstTs.None? && st.lastTs.None? && st.maxTs == 0
        else
          && st.firstTs == Some(times[0]) && st.lastTs == Some(times[|times| - 1])
          && (forall k :: 0 <= k < |times| ==> times[k] <= st.maxTs) && st.maxTs in times)
  }

  lemma StepTimes<P, M>(feed: Feed<P, M>, range: Option<Range>, st: Replaying<P>, line: Line<M>, times: seq<nat>)
    requires TimesReported(st, times) && StepLine(feed, range, st, line).Some?
    ensures TimesReported(StepLine(feed, range, st, line).value,
                   times + if line.Record? && Selects(range, line.number) then [line.ts] else [])
  {
    hide Emit, Emitted, Seeds, ObserveAll, MarketOutputs;
    assert times + [] == times;
    if line.Record? && !Past(range, line.number) {
      var held := Admit(range, st, line).value;
      var chosen := Selects(range, line.number);
      var ready := if chosen then SeedIn(feed, range, Select(held, line), line) else held;
      var h := feed.handle(ready.p, line.body);
      EmitIs(range, chosen, ready.(p := h.state), line, h.outputs);
      var now := times + [line.ts];
      assert now[|times|] == line.ts && forall k :: 0 <= k < |times| ==> now[k] == times[k];
    }
  }

  lemma {:induction false} RunTimes<P, M>(feed: Feed<P, M>, range: Option<Range>, st: Replaying<P>, lines: seq<Line<M>>,
                                          times: seq<nat>)
    requires TimesReported(st, times) && RunLines(feed, range, st, lines).Some?
    ensures TimesReported(RunLines(feed, range, st, lines).value, times + SelectedTimes(range, lines))
    decreases |lines|
  {
    hide TimesReported, StepLine;
    if lines == [] {
      assert times + [] == times;
    } else {
      var more := if lines[0].Record? && Selects(range, lines[0].number) then [lines[0].ts] else [];
      StepTimes(feed, range, st, lines[0], times);
      RunTimes(feed, range, StepLine(feed, range, st, lines[0]).value, lines[1..], times + more);
      AppendAssociates(times, more, SelectedTimes(range, lines[1..]));
    }
  }

  /** A replay reports the number of records it selected and their first, last and greatest time. */
  lemma {:induction false} ReplayTimes<P, M>(feed: Feed<P, M>, range: Option<Range>, lines: seq<Line<M>>)
    requires Replay(feed, range, lines).Some?
    ensures TimesReported(Replay(feed, range, lines).value, SelectedTimes(range, lines))
  {
    hide RunLines;
    RunTimes(feed, range, Begin(feed), lines, []);
    assert [] + SelectedTimes(range, lines) == SelectedTimes(range, lines);
  }

  /** Events come in record order, from records 1 to `n`. */
  ghost predicate InOrder(events: seq<Timed>, n: nat) {
    && (forall k :: 0 <= k < |events| ==> events[k].number.Some? && 1 <= events[k].number.value <= n)
    && (forall j, k :: 0 <= j < k < |events| && events[j].number.Some? && events[k].number.Some? ==>
          events[j].number.value <= events[k].number.value)
  }

  lemma {:induction false} RunInOrder<P, M>(feed: Feed<P, M>, st: Replaying<P>, lines: seq<Line<M>>, n: nat)
    requires RunLines(feed, None, st, lines).Some? && RunLines(feed, None, st, lines).value.last == Some(n)
    requires InOrder(st.events, Number(st))
    ensures InOrder(RunLines(feed, None, st, lines).value.events, n)
    decreases |lines|
  {
    if lines != [] {
      HeadNumbered(feed, n, st, lines);
      hide Process, Emitted;
      if lines[0].Record? {
        ProcessIs(feed, None, Admit(None, st, lines[0]).value, lines[0]);
        EmittedFrom(lines[0], feed.handle(st.p, lines[0].body).outputs);
      }
      RunInOrder(feed, StepLine(feed, None, st, lines[0]).value, lines[1..], n);
    }
  }

  lemma {:induction false} BetweenSplits(events: seq<Timed>, n: nat, i: nat, k: nat, j: nat)
    requires InOrder(events, n) && i <= k <= j
    ensures Between(events, i, k) + Between(events, k + 1, j) == Between(events, i, j)
  {
    if events != [] {
      BetweenSplits(events[1..], n, i, k, j);
      if events[0].number.value > k {
        NoneBetween(events, i, k);
        NoneBetween(events[1..], i, k);
        var tail := Between(events[1..], k + 1, j);
        assert [] + tail == tail && [] + Between(events, k + 1, j) == Between(events, k + 1, j);
      } else {
        AppendAssociates(if i <= events[0].number.value then [events[0]] else [], Between(events[1..], i, k),
                         Between(events[1..], k + 1, j));
      }
    }
  }

  lemma {:induction false} NoneBetween(events: seq<Timed>, i: nat, k: nat)
    requires forall x :: 0 <= x < |events| && events[x].number.Some? ==> events[x].number.value > k
    ensures Between(events, i, k) == []
  {
    if events != [] {
      NoneBetween(events[1..], i, k);
    }
  }

  lemma {:induction false} AllBetween(events: seq<Timed>, n: nat)
    requires InOrder(events, n)
    ensures Between(events, 1, n) == events
  {
    if events != [] {
      AllBetween(events[1..], n);
      assert events == [events[0]] + events[1..];
    }
  }

  /** So adjacent ranges announce together what their union does, and the union of all what the whole replay does. */
  lemma {:induction false} RangesCompose<P, M>(feed: Feed<P, M>, lines: seq<Line<M>>, i: nat, k: nat, j: nat, n: nat)
    requires 1 <= i <= k < j <= n
    requires Replay(feed, None, lines).Some? && Replay(feed, None, lines).value.last == Some(n)
    ensures RunLines(feed, Some(Range(i, k)), Begin(feed), lines).Some?
    ensures RunLines(feed, Some(Range(k + 1, j)), Begin(feed), lines).Some?
    ensures RunLines(feed, Some(Range(i, j)), Begin(feed), lines).Some?
    ensures RunLines(feed, Some(Range(i, k)), Begin(feed), lines).value.events
            + RunLines(feed, Some(Range(k + 1, j)), Begin(feed), lines).value.events
            == RunLines(feed, Some(Range(i, j)), Begin(feed), lines).value.events
    ensures i == 1 && j == n ==>
              RunLines(feed, Some(Range(i, j)), Begin(feed), lines).value.events == Replay(feed, None, lines).value.events
  {
    hide RunLines, Between, LatestSeeds, AfterRecords, MarketEvents;
    RangeReplay(feed, lines, Range(i, k), n);
    RangeReplay(feed, lines, Range(k + 1, j), n);
    RangeReplay(feed, lines, Range(i, j), n);
    RunInOrder(feed, Begin(feed), lines, n);
    var events := Replay(feed, None, lines).value.events;
    BetweenSplits(events, n, i, k, j);
    AllBetween(events, n);
  }

  // ---------------------------------------------------------------- the loop itself

  /** The warm state as the object it is: three maps updated in place. */
  class WarmState {
    var index: map<Symbol, Event>
    var funding: map<Symbol, Event>
    var limits: map<Symbol, WarmLimits>

    ghost function State(): Warm
      reads this
    {
      Warm(index, funding, limits)
    }

    constructor ()
      ensures State() == COLD
    {
      index, funding, limits := map[], map[], map[];
    }

    method ObserveEvent(e: Event)
      modifies this
      ensures State() == Observe(old(State()), e)
    {
      match e
      case IndexPrice(s, _, _) => index := index[s := e];
      case FundingRate(s, _, _) => funding := funding[s := e];
      case PriceLimits(s, ts, mark, down, up) =>
        var l := if s in limits then limits[s] else NO_LIMITS;
        if mark > 0.0 {
          l := l.(mark := Some((ts, mark)));
        }
        if down > 0.0 || up > 0.0 {
          l := l.(limits := Some((ts, down, up)));
        }
        limits := limits[s := l];
      case Other(_) =>
    }

    method Events() returns (events: seq<Event>)
      ensures events == Seeds(State())
    {
      var first := ListKeys(index.Keys);
      var second := ListKeys(funding.Keys);
      var third := ListKeys(limits.Keys);
      events := Valued(index, first) + Valued(funding, second) + Announced(limits, third);
    }
  }

  /** The main loop over the input, with the warm state beside it; it computes exactly the replay above. */
  method ReplaySelected<P(0), M(0)>(feed: Feed<P, M>, range: Option<Range>, lines: seq<Line<M>>)
    returns (r: Option<Replaying<P>>)
    ensures r == Replay(feed, range, lines)
  {
    if range.Some? && !range.value.Valid() {
      return None;
    }
    hide StepLine, Complete;
    var warm := new WarmState();
    var st := Replaying(feed.start, None, None, false, 0, None, None, None, None, 0, false, COLD, [], []);
    ghost var goal := RunLines(feed, range, Begin(feed), lines);
    assert lines[0..] == lines;
    for i := 0 to |lines|
      invariant fresh(warm) && warm.State() == st.warm
      invariant goal == RunLines(feed, range, st, lines[i..])
    {
      assert lines[i..][0] == lines[i] && lines[i..][1..] == lines[i + 1..];
      var next := TakeLine(feed, range, st, lines[i], warm);
      if next.None? {
        return None;
      }
      st := next.value;
    }
    if !Complete(feed, range, st) {
      return None;
    }
    return Some(st);
  }

  method TakeLine<P(0), M(0)>(feed: Feed<P, M>, range: Option<Range>, st: Replaying<P>, line: Line<M>, warm: WarmState)
    returns (r: Option<Replaying<P>>)
    requires warm.State() == st.warm
    modifies warm
    ensures r == StepLine(feed, range, st, line)
    ensures r.Some? ==> warm.State() == r.value.warm
  {
    if line.Skip? {
      return Some(st);
    }
    if line.Unreadable? {
      return None;
    }
    var admitted := Admit(range, st, line);
    if admitted.None? {
      return None;
    }
    var held := admitted.value;
    if Past(range, line.number) {
      return Some(held);
    }
    hide Emit, Seeds, Stamp;
    var chosen := Selects(range, line.number);
    if chosen {
      held := Select(held, line);
      if range.Some? && !held.seeded {
        var seeds := warm.Events();
        held := held.(seeded := true, seeds := held.seeds + StampAll(line, seeds) + StampAll(line, feed.books(held.p)));
      }
    }
    var h := feed.handle(held.p, line.body);
    if h.Failed? {
      return None;
    }
    r := EmitOutputs(range, chosen, held.(p := h.state), line, h.outputs, warm);
  }

  method EmitOutputs<P(0), M(0)>(range: Option<Range>, chosen: bool, from: Replaying<P>, line: Line<M>, outputs: seq<Output>,
                                 warm: WarmState)
    returns (r: Option<Replaying<P>>)
    requires line.Record? && warm.State() == from.warm
    modifies warm
    ensures r == Emit(range, chosen, from, line, outputs)
    ensures r.Some? ==> warm.State() == r.value.warm
  {
    hide Observe, Stamp;
    var st := from;
    assert outputs[0..] == outputs;
    for i := 0 to |outputs|
      invariant warm.State() == st.warm
      invariant Emit(range, chosen, from, line, outputs) == Emit(range, chosen, st, line, outputs[i..])
    {
      assert outputs[i..][0] == outputs[i] && outputs[i..][1..] == outputs[i + 1..];
      match outputs[i]
      case Private => return None;
      case Silent =>
      case Market(e) =>
        if chosen {
          st := st.(events := st.events + [Stamp(line, Quoted(e))]);
        } else if range.Some? {
          warm.ObserveEvent(e);
          st := st.(warm := Warm(warm.index, warm.funding, warm.limits));
        }
      case System(id) =>
        if chosen {
          st := st.(events := st.events + [Stamp(line, Reported(id))]);
        }
    }
    return Some(st);
  }
}
