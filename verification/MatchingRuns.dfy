/** Whole runs of the matching engine: what every reachable state satisfies. */
module MatchingRuns {
  import opened Book
  import opened Matching
  import opened MatchingTrade
  import opened MatchingDepth

  // ---------------------------------------------------------------- events and runs

  datatype Event =
    | Prepared(side: Side, price: real, qty: real, tif: Tif)
    | Activated(id: Id)
    | DepthShown(shown: OrderBook)
    | TradeSeen(px: real, qty: real, taker: Side)
    | CancelRequested(id: Id)

  ghost function StepEvent(s: Setup, e: Engine, event: Event): Stepped {
    match event
    case Prepared(side, price, qty, tif) => Stepped(Prepare(s, e, side, price, qty, tif), NothingDrawn)
    case Activated(id) => Activate(s, e, id)
    case DepthShown(shown) => OnDepth(s, e, shown)
    case TradeSeen(px, qty, taker) => Stepped(OnTrade(s, e, px, qty, taker), NothingDrawn)
    case CancelRequested(id) => Stepped(CancelOrder(e, id), NothingDrawn)
  }

  ghost function RunEngine(s: Setup, events: seq<Event>): Engine {
    if events == [] then NewEngine
    else StepEvent(s, RunEngine(s, events[..|events| - 1]), events[|events| - 1]).engine
  }

  // ---------------------------------------------------------------- the engine invariant

  /** Everything but the purge of finished orders. */
  ghost predicate Consistent(e: Engine) {
    && (forall id :: id in e.orders ==> id < e.nextId && Sound(e.orders[id]))
    && (forall id :: id in e.orders && e.orders[id].IsLive() ==> id in e.meta)
    && (forall id :: id in e.meta ==> id in e.orders && e.meta[id].arrival < e.nextSeq)
    && DistinctArrivals(e)
  }

  /** Orders are sound, and exactly the live ones are ranked, with distinct arrival numbers. */
  ghost predicate Inv(e: Engine) {
    Consistent(e) && forall id :: id in e.meta ==> e.orders[id].IsLive()
  }

  lemma PurgeEstablishes(e: Engine)
    requires Consistent(e)
    ensures Inv(Purged(e))
  {
  }

  /** The priority list of a consistent engine ranks exactly the live orders of the side. */
  lemma PriorityListIsResting(e: Engine, side: Side)
    requires Consistent(e)
    ensures RestingList(PriorityList(e, side), side, e.orders)
    ensures forall id :: id in e.orders && e.orders[id].IsLive() && e.orders[id].side == side ==>
              EntryOf(e, id) in PriorityList(e, side)
    ensures forall x :: x in PriorityList(e, side) ==> x.id in e.meta && e.orders[x.id].side == side && x == EntryOf(e, x.id)
  {
    var list := PriorityList(e, side);
    forall x | x in list
      ensures x.id in e.meta && x.id in e.orders && e.orders[x.id].IsLive() && e.orders[x.id].side == side
      ensures x == EntryOf(e, x.id)
    {
      assert x.id in RankedIds(e, side);
    }
    forall id | id in e.orders && e.orders[id].IsLive() && e.orders[id].side == side ensures EntryOf(e, id) in list {
      assert id in RankedIds(e, side);
    }
  }

  // ---------------------------------------------------------------- trades

  /** Changing orders and queues in place keeps consistency when soundness holds and nothing comes to life. */
  lemma InPlaceUpdateKeeps(e: Engine, orders: map<Id, Order>, meta: map<Id, Meta>)
    requires Consistent(e)
    requires orders.Keys == e.orders.Keys && meta.Keys == e.meta.Keys
    requires forall id :: id in e.meta ==> meta[id].arrival == e.meta[id].arrival
    requires forall id :: id in e.orders ==> Sound(orders[id]) && (orders[id].IsLive() ==> e.orders[id].IsLive())
    ensures Consistent(e.(orders := orders, meta := meta))
  {
    var r := e.(orders := orders, meta := meta);
    forall id | id in r.meta ensures id in r.orders && r.meta[id].arrival < r.nextSeq {
      assert id in e.meta;
    }
    forall id | id in r.orders ensures id < r.nextId {
      assert id in e.orders;
    }
  }

  /** Each order after the trade loop is sound, and live only if it was. */
  lemma TradedOrderSound(s: Setup, e: Engine, px: real, taker: Side, list: seq<Entry>, t: Trading, id: Id)
    requires Consistent(e) && list == PriorityList(e, taker.Reverse())
    requires t.orders == e.orders && t.left >= 0.0 && id in e.orders
    ensures var r := TradeLoop(s, px, taker, list, t);
            id in r.orders && Sound(r.orders[id]) && (r.orders[id].IsLive() ==> e.orders[id].IsLive())
  {
    PriorityListIsResting(e, taker.Reverse());
    TradeKeeps(s, px, taker, list, t);
    if Listed(list, id) {
      var x :| x in list && x.id == id;
    }
  }

  lemma TradeKeepsInv(s: Setup, e: Engine, px: real, volume: real, taker: Side)
    requires Inv(e)
    ensures Inv(AfterTrade(s, e, px, volume, taker))
  {
    var list := PriorityList(e, taker.Reverse());
    var t := Trading(e.orders, e.meta, volume, []);
    var r := TradeLoop(s, px, taker, list, t);
    if t.left >= 0.0 {
      PriorityListIsResting(e, taker.Reverse());
      TradeKeeps(s, px, taker, list, t);
      TradeKeepsArrivals(s, px, taker, list, t);
      forall id | id in e.orders ensures Sound(r.orders[id]) && (r.orders[id].IsLive() ==> e.orders[id].IsLive()) {
        TradedOrderSound(s, e, px, taker, list, t, id);
      }
      InPlaceUpdateKeeps(e, r.orders, r.meta);
    }
    PurgeEstablishes(e.(orders := r.orders, meta := r.meta));
  }

  lemma {:induction false} TradeKeepsArrivals(s: Setup, px: real, taker: Side, list: seq<Entry>, t: Trading)
    ensures var r := TradeLoop(s, px, taker, list, t);
            r.meta.Keys == t.meta.Keys && forall id :: id in t.meta ==> r.meta[id].arrival == t.meta[id].arrival
    decreases |list|
  {
    if list != [] && t.left > 0.0 {
      var id := list[0].id;
      if id !in t.orders {
        TradeKeepsArrivals(s, px, taker, list[1..], t);
      } else if taker.Crosses(px, t.orders[id].price) {
        var passed := PassQueue(s, px, id, t.orders[id].price, t);
        if passed.left > 0.0 {
          TradeKeepsArrivals(s, px, taker, list[1..], FillFromTrade(id, passed));
        }
      }
    }
  }

  ghost predicate RestsOn(e: Engine, side: Side, id: Id) {
    id in e.orders && e.orders[id].IsLive() && e.orders[id].side == side
  }

  /** Higher priority: a better price, or the same price and an earlier arrival. */
  ghost predicate Ahead(e: Engine, side: Side, a: Id, b: Id)
    requires RestsOn(e, side, a) && RestsOn(e, side, b)
  {
    var (x, y) := (e.orders[a].price, e.orders[b].price);
    || (if side.Buy? then x > y else x < y)
    || (x == y && a in e.meta && b in e.meta && e.meta[a].arrival < e.meta[b].arrival)
  }

  /** Fills, consumed queue and leftover make up the eligible volume; a trade without volume changes nothing. */
  lemma TradeVolume(s: Setup, e: Engine, px: real, volume: real, taker: Side)
    requires Inv(e)
    ensures var r := Traded(s, e, px, volume, taker);
            && (volume <= 0.0 ==> r.orders == e.orders && r.meta == e.meta)
            && (volume >= 0.0 ==>
                  && r.left >= 0.0
                  && VolumeConserved(s, px, PriorityList(e, taker.Reverse()), Trading(e.orders, e.meta, volume, []), r))
  {
    PriorityListIsResting(e, taker.Reverse());
    var t := Trading(e.orders, e.meta, volume, []);
    if t.left >= 0.0 {
      TradeKeeps(s, px, taker, PriorityList(e, taker.Reverse()), t);
      TradeConservesVolume(s, px, taker, PriorityList(e, taker.Reverse()), t);
    }
  }

  lemma EligibleIs(s: Setup, qty: real)
    requires ValidSetup(s) && qty >= 0.0
    ensures 0.0 <= Eligible(s, qty) == qty * s.tradeFraction <= qty
  {
  }

  /** What a historical trade fills and takes off queues comes out of the configured fraction of its quantity. */
  lemma TradeWithinFraction(s: Setup, e: Engine, px: real, qty: real, taker: Side)
    requires Inv(e) && ValidSetup(s) && qty >= 0.0
    ensures Eligible(s, qty) == qty * s.tradeFraction <= qty
    ensures var r := Traded(s, e, px, Eligible(s, qty), taker);
            && 0.0 <= r.left
            && VolumeConserved(s, px, PriorityList(e, taker.Reverse()), Trading(e.orders, e.meta, Eligible(s, qty), []), r)
  {
    EligibleIs(s, qty);
    hide Eligible, Traded, PriorityList, VolumeConserved;
    TradeVolume(s, e, px, Eligible(s, qty), taker);
  }

  /** A resting order is reached only after every order with priority over it is complete. */
  lemma TradePriority(s: Setup, e: Engine, px: real, volume: real, taker: Side, a: Id, b: Id)
    requires Inv(e)
    requires RestsOn(e, taker.Reverse(), a) && RestsOn(e, taker.Reverse(), b) && Ahead(e, taker.Reverse(), a, b)
    ensures var r := Traded(s, e, px, volume, taker);
            && a in r.orders && b in r.orders
            && (r.orders[b].open < e.orders[b].open ==> r.orders[a].open == 0.0)
  {
    var list := PriorityList(e, taker.Reverse());
    var t := Trading(e.orders, e.meta, volume, []);
    PriorityListIsResting(e, taker.Reverse());
    if t.left >= 0.0 {
      TradeKeeps(s, px, taker, list, t);
      TradeRespectsPriority(s, px, taker, list, t);
      var i, j := AheadComesFirst(e, taker.Reverse(), list, a, b);
    }
  }

  /** Leftover volume means that every resting order the trade crosses is complete. */
  lemma TradeLeftover(s: Setup, e: Engine, px: real, volume: real, taker: Side, id: Id)
    requires Inv(e) && RestsOn(e, taker.Reverse(), id) && taker.Crosses(px, e.orders[id].price)
    requires Traded(s, e, px, volume, taker).left > 0.0
    ensures var r := Traded(s, e, px, volume, taker);
            id in r.orders && r.orders[id].open == 0.0
  {
    var list := PriorityList(e, taker.Reverse());
    var t := Trading(e.orders, e.meta, volume, []);
    PriorityListIsResting(e, taker.Reverse());
    LeftoverMeansAllFilled(s, px, taker, list, t);
    assert EntryOf(e, id) in list;
  }

  /** A trade leaves every order alone that does not rest on the maker side. */
  lemma TradeTouchesMakersOnly(s: Setup, e: Engine, px: real, volume: real, taker: Side, id: Id)
    requires Inv(e) && id in e.orders && !RestsOn(e, taker.Reverse(), id)
    ensures var r := Traded(s, e, px, volume, taker);
            id in r.orders && r.orders[id] == e.orders[id]
  {
    var list := PriorityList(e, taker.Reverse());
    var t := Trading(e.orders, e.meta, volume, []);
    PriorityListIsResting(e, taker.Reverse());
    if t.left >= 0.0 {
      TradeKeeps(s, px, taker, list, t);
    }
  }

  lemma AheadComesFirst(e: Engine, side: Side, list: seq<Entry>, a: Id, b: Id) returns (i: nat, j: nat)
    requires Inv(e) && list == PriorityList(e, side)
    requires RestsOn(e, side, a) && RestsOn(e, side, b) && Ahead(e, side, a, b)
    ensures i < j < |list| && list[i].id == a && list[j].id == b
  {
    PriorityListIsResting(e, side);
    i :| 0 <= i < |list| && list[i] == EntryOf(e, a);
    j :| 0 <= j < |list| && list[j] == EntryOf(e, b);
  }

  // ---------------------------------------------------------------- depth

  /** What a sweep of one side does to a single order. */
  lemma SweptOrder(s: Setup, e: Engine, maker: Side, id: Id)
    requires Consistent(e) && id in e.orders
    ensures var r := Swept(s, e, maker);
            && id in r.orders && Sound(r.orders[id])
            && (r.orders[id].IsLive() ==> e.orders[id].IsLive())
            && r.orders[id].side == e.orders[id].side && r.orders[id].price == e.orders[id].price
            && (!RestsOn(e, maker, id) ==> r.orders[id] == e.orders[id])
  {
    var list := PriorityList(e, maker);
    PriorityListIsResting(e, maker);
    SweepKeeps(s, BestOf(e.book, maker.Reverse()), maker, list,
               Sweeping(e.orders, e.meta, LevelsOf(e.depth, maker.Reverse()), [], []));
    if Listed(list, id) {
      var x :| x in list && x.id == id;
    }
  }

  lemma SweepSideKeeps(s: Setup, e: Engine, maker: Side)
    requires Consistent(e)
    ensures Consistent(SweepSide(s, e, maker).engine)
    ensures SweepSide(s, e, maker).engine.orders.Keys == e.orders.Keys
  {
    var r := Swept(s, e, maker);
    PriorityListIsResting(e, maker);
    SweepKeeps(s, BestOf(e.book, maker.Reverse()), maker, PriorityList(e, maker),
               Sweeping(e.orders, e.meta, LevelsOf(e.depth, maker.Reverse()), [], []));
    forall id | id in e.orders ensures Sound(r.orders[id]) && (r.orders[id].IsLive() ==> e.orders[id].IsLive()) {
      SweptOrder(s, e, maker, id);
    }
    InPlaceUpdateKeeps(e, r.orders, r.meta);
    ConsistentIgnoresBooks(e.(orders := r.orders, meta := r.meta), SweepSide(s, e, maker).engine);
  }

  lemma ConsistentIgnoresBooks(a: Engine, b: Engine)
    requires Consistent(a)
    requires b.orders == a.orders && b.meta == a.meta && b.nextId == a.nextId && b.nextSeq == a.nextSeq
    ensures Consistent(b)
  {
  }

  lemma DepthKeepsInv(s: Setup, e: Engine, shown: OrderBook)
    requires Inv(e)
    ensures Inv(OnDepth(s, e, shown).engine)
  {
    var e0 := Shown(s, e, shown);
    assert Consistent(e0);
    SweepSideKeeps(s, e0, Sell);
    var e1 := SweepSide(s, e0, Sell).engine;
    SweepSideKeeps(s, e1, Buy);
    PurgeEstablishes(SweepSide(s, e1, Buy).engine);
  }

  // ---------------------------------------------------------------- order entry

  lemma PrepareKeepsInv(s: Setup, e: Engine, side: Side, price: real, qty: real, tif: Tif)
    requires Inv(e)
    ensures Inv(Prepare(s, e, side, price, qty, tif))
  {
    var r := Prepare(s, e, side, price, qty, tif);
    assert e.nextId !in e.meta;
    assert forall id :: id in e.orders ==> r.orders[id] == e.orders[id];
  }

  lemma CancelKeepsInv(e: Engine, id: Id)
    requires Inv(e)
    ensures Inv(CancelOrder(e, id))
  {
  }

  lemma SetOrderKeeps(e: Engine, id: Id, o: Order)
    requires Consistent(e) && id in e.orders && Sound(o) && (o.IsLive() ==> id in e.meta)
    ensures Consistent(SetOrder(e, id, o))
  {
  }

  /** A matched taker is sound, and a complete one is not live. */
  lemma MatchTakerKeeps(e: Engine, id: Id)
    requires Consistent(e) && id in e.orders && e.orders[id].status.PendingNew? && e.orders[id].price > 0.0
    ensures var r := MatchTaker(e, id).engine;
            var o := r.orders[id];
            && Sound(o) && o.price > 0.0 && (o.IsLive() ==> o.open > 0.0)
            && r == e.(orders := e.orders[id := o], depth := r.depth)
  {
    var o := e.orders[id];
    WalkFitsDemand(LevelsOf(e.depth, o.side.Reverse()), o.side, o.price, o.open);
    FillEachMovesTotal(o, TakeLevels(LevelsOf(e.depth, o.side.Reverse()), o.side, o.price, o.open).fills);
  }

  /** Resting an order under a fresh arrival number; a partly matched order is live before it is ranked. */
  lemma RestKeeps(e: Engine, m: Engine, id: Id, rank: Meta)
    requires Consistent(e) && id in e.orders && id !in e.meta && rank.arrival < e.nextSeq
    requires forall k :: k in e.meta ==> e.meta[k].arrival != rank.arrival
    requires id in m.orders && m == e.(orders := e.orders[id := m.orders[id]], depth := m.depth)
    requires Sound(m.orders[id]) && m.orders[id].price > 0.0
    ensures Consistent(Rest(m, id, rank))
  {
  }

  lemma SettleKeeps(e: Engine, id: Id, rank: Meta)
    requires Consistent(e) && id in e.orders && e.orders[id].status.PendingNew? && e.orders[id].price > 0.0
    requires id !in e.meta && rank.arrival < e.nextSeq
    requires forall k :: k in e.meta ==> e.meta[k].arrival != rank.arrival
    ensures Consistent(TakeThenSettle(e, id, rank).engine)
  {
    var m := MatchTaker(e, id).engine;
    var o := m.orders[id];
    MatchTakerKeeps(e, id);
    if o.open > 0.0 {
      SetOrderKeeps(e, id, o.Cancel());
      ConsistentIgnoresBooks(SetOrder(e, id, o.Cancel()), SetOrder(m, id, o.Cancel()));
      RestKeeps(e, m, id, rank);
    } else {
      SetOrderKeeps(e, id, o);
      ConsistentIgnoresBooks(SetOrder(e, id, o), m);
    }
  }

  lemma FinishKeeps(e: Engine, id: Id)
    requires Consistent(e) && id in e.orders && e.orders[id].status.PendingNew?
    ensures Consistent(SetOrder(e, id, e.orders[id].Reject()))
    ensures Consistent(SetOrder(e, id, e.orders[id].Cancel()))
  {
    SetOrderKeeps(e, id, e.orders[id].Reject());
    SetOrderKeeps(e, id, e.orders[id].Cancel());
  }

  lemma RestPendingKeeps(e: Engine, id: Id, rank: Meta)
    requires Consistent(e) && id in e.orders && id !in e.meta && rank.arrival < e.nextSeq
    requires forall k :: k in e.meta ==> e.meta[k].arrival != rank.arrival
    requires e.orders[id].price > 0.0
    ensures Consistent(Rest(e, id, rank))
  {
    assert e == e.(orders := e.orders[id := e.orders[id]], depth := e.depth);
    RestKeeps(e, e, id, rank);
  }

  lemma EnterKeeps(e: Engine, id: Id, rank: Meta)
    requires Consistent(e) && id in e.orders && e.orders[id].status.PendingNew?
    requires id !in e.meta && rank.arrival < e.nextSeq
    requires forall k :: k in e.meta ==> e.meta[k].arrival != rank.arrival
    ensures Consistent(Enter(e, id, rank).engine)
  {
    hide Consistent, SetOrder, Rest, TakeThenSettle, CrossesDepth;
    FinishKeeps(e, id);
    if e.orders[id].price > 0.0 {
      RestPendingKeeps(e, id, rank);
      SettleKeeps(e, id, rank);
    }
  }

  lemma NextArrival(e: Engine)
    requires Inv(e)
    ensures Consistent(e.(nextSeq := e.nextSeq + 1))
    ensures forall k :: k in e.meta ==> e.meta[k].arrival != e.nextSeq
    ensures forall id :: id in e.orders && e.orders[id].status.PendingNew? ==> id !in e.meta
  {
  }

  lemma ActivateBehindKeepsInv(e: Engine, id: Id, ahead: real)
    requires Inv(e) && id in e.orders && e.orders[id].status == PendingNew
    ensures Inv(ActivateBehind(e, id, ahead).engine)
  {
    hide Consistent, Inv, Enter, Purged;
    var e1 := e.(nextSeq := e.nextSeq + 1);
    NextArrival(e);
    EnterKeeps(e1, id, Meta(e.nextSeq, ahead));
    PurgeEstablishes(Enter(e1, id, Meta(e.nextSeq, ahead)).engine);
  }

  lemma StepKeepsInv(s: Setup, e: Engine, event: Event)
    requires Inv(e)
    ensures Inv(StepEvent(s, e, event).engine)
  {
    hide Inv, Eligible, AssumedQueue, ActivateBehind, OnDepth, AfterTrade, Prepare, CancelOrder;
    match event
    case Prepared(side, price, qty, tif) => PrepareKeepsInv(s, e, side, price, qty, tif);
    case Activated(id) =>
      if id in e.orders && e.orders[id].status == PendingNew {
        ActivateBehindKeepsInv(e, id, AssumedQueue(s, e, e.orders[id]));
      }
    case DepthShown(shown) => DepthKeepsInv(s, e, shown);
    case TradeSeen(px, qty, taker) => TradeKeepsInv(s, e, px, Eligible(s, qty), taker);
    case CancelRequested(id) => CancelKeepsInv(e, id);
  }

  /** In every reachable state orders are sound and exactly the live ones are ranked. */
  lemma {:induction false} RunKeepsInv(s: Setup, events: seq<Event>)
    ensures Inv(RunEngine(s, events))
  {
    if events != [] {
      RunKeepsInv(s, events[..|events| - 1]);
      StepKeepsInv(s, RunEngine(s, events[..|events| - 1]), events[|events| - 1]);
    }
  }
}
