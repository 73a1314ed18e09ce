/** Where a trade's volume goes: in priority order, first into the queue ahead of an order, then into the order. */
module MatchingFlow {
  import opened Sequences
  import opened Book
  import opened Matching
  import opened MatchingTrade
  import opened MatchingRuns

  function AtLeastZero(x: real): real {
    if x > 0.0 then x else 0.0
  }

  // ---------------------------------------------------------------- what an order absorbs

  /** Volume that a trade at `px` must spend on the queue ahead of an order: none if it trades through the price. */
  ghost function QueueCost(s: Setup, px: real, x: Entry, meta: map<Id, Meta>): real {
    if ApproxEq(px, x.price, s.PxThreshold()) then AtLeastZero(AheadOf(meta, x.id)) else 0.0
  }

  /** Volume that the listed orders and the queues ahead of them absorb together. */
  ghost function Absorbed(s: Setup, px: real, list: seq<Entry>, t: Trading): real
    requires forall x :: x in list ==> x.id in t.orders
  {
    if list == [] then 0.0
    else QueueCost(s, px, list[0], t.meta) + t.orders[list[0].id].open + Absorbed(s, px, list[1..], t)
  }

  /** Volume that gets past the first `k` orders. */
  ghost function Arriving(s: Setup, px: real, list: seq<Entry>, t: Trading, k: nat): real
    requires k <= |list| && forall x :: x in list ==> x.id in t.orders
  {
    AtLeastZero(t.left - Absorbed(s, px, list[..k], t))
  }

  /** With `v` arriving, the queue takes what it can at its price, or clears if traded through; the order takes the rest. */
  ghost predicate Receives(s: Setup, px: real, x: Entry, v: real, t: Trading, r: Trading) {
    && x.id in t.orders && x.id in r.orders
    && var queue := MinReal(v, QueueCost(s, px, x, t.meta));
       var fill := MinReal(t.orders[x.id].open, v - queue);
       && r.orders[x.id].open == t.orders[x.id].open - fill
       && r.orders[x.id].filled == t.orders[x.id].filled + fill
       && AheadOf(r.meta, x.id)
          == if v > 0.0 && !ApproxEq(px, x.price, s.PxThreshold()) then MinReal(AheadOf(t.meta, x.id), 0.0)
             else AheadOf(t.meta, x.id) - queue
  }

  ghost predicate Untouched(x: Entry, t: Trading, r: Trading) {
    && x.id in t.orders && x.id in r.orders
    && r.orders[x.id] == t.orders[x.id] && AheadOf(r.meta, x.id) == AheadOf(t.meta, x.id)
  }

  lemma HeadReceives(s: Setup, px: real, x: Entry, t: Trading)
    requires x.id in t.orders && t.orders[x.id].IsLive() && Sound(t.orders[x.id]) && t.orders[x.id].price == x.price
    requires t.left > 0.0
    ensures var r := HeadStep(s, px, x, t);
            && Receives(s, px, x, t.left, t, r)
            && r.left == AtLeastZero(t.left - QueueCost(s, px, x, t.meta) - t.orders[x.id].open)
  {
    var passed := PassQueue(s, px, x.id, t.orders[x.id].price, t);
    if passed.left > 0.0 {
      FillMovesOpenToFilled(t.orders[x.id], MinReal(t.orders[x.id].open, passed.left));
    }
  }

  lemma {:induction false} AbsorbedNotNegative(s: Setup, px: real, list: seq<Entry>, t: Trading)
    requires forall x :: x in list ==> x.id in t.orders && Sound(t.orders[x.id])
    ensures Absorbed(s, px, list, t) >= 0.0
  {
    if list != [] {
      assert list[0] in list;
      AbsorbedNotNegative(s, px, list[1..], t);
    }
  }

  lemma {:induction false} AbsorbedAgrees(s: Setup, px: real, list: seq<Entry>, t: Trading, u: Trading)
    requires forall x :: x in list ==> x.id in t.orders && x.id in u.orders && u.orders[x.id] == t.orders[x.id]
    requires forall x :: x in list ==> AheadOf(u.meta, x.id) == AheadOf(t.meta, x.id)
    ensures Absorbed(s, px, list, u) == Absorbed(s, px, list, t)
  {
    if list != [] {
      AbsorbedAgrees(s, px, list[1..], t, u);
    }
  }

  // ---------------------------------------------------------------- the whole loop

  ghost predicate Flows(s: Setup, px: real, taker: Side, list: seq<Entry>, t: Trading, r: Trading, k: nat)
    requires k < |list| && forall x :: x in list ==> x.id in t.orders
  {
    if taker.Crosses(px, list[k].price) then Receives(s, px, list[k], Arriving(s, px, list, t, k), t, r)
    else Untouched(list[k], t, r)
  }

  /** What arrives at a later order is the same before and after the first order has had its share. */
  lemma ArrivingAfterHead(s: Setup, px: real, list: seq<Entry>, t: Trading, u: Trading, k: nat)
    requires 0 < k <= |list| && (forall x :: x in list ==> x.id in t.orders && Sound(t.orders[x.id]))
    requires forall x :: x in list[1..] ==> x.id in u.orders && u.orders[x.id] == t.orders[x.id]
    requires forall x :: x in list[1..] ==> AheadOf(u.meta, x.id) == AheadOf(t.meta, x.id)
    requires u.left == AtLeastZero(t.left - QueueCost(s, px, list[0], t.meta) - t.orders[list[0].id].open)
    ensures Arriving(s, px, list[1..], u, k - 1) == Arriving(s, px, list, t, k)
  {
    var tail := list[1..][..k - 1];
    assert list[..k][1..] == tail && list[..k][0] == list[0];
    hide QueueCost;
    AbsorbedAgrees(s, px, tail, t, u);
    AbsorbedNotNegative(s, px, tail, t);
  }

  lemma NoneArriving(s: Setup, px: real, list: seq<Entry>, t: Trading, k: nat)
    requires k < |list| && t.left <= 0.0 && forall x :: x in list ==> x.id in t.orders && Sound(t.orders[x.id])
    ensures Arriving(s, px, list, t, k) == 0.0 && Receives(s, px, list[k], 0.0, t, t)
  {
    AbsorbedNotNegative(s, px, list[..k], t);
    assert list[k] in list;
  }

  lemma LaterReceives(s: Setup, px: real, x: Entry, v: real, t: Trading, u: Trading, r: Trading)
    requires Receives(s, px, x, v, u, r) && x.id in t.orders && u.orders[x.id] == t.orders[x.id]
    requires AheadOf(u.meta, x.id) == AheadOf(t.meta, x.id)
    ensures Receives(s, px, x, v, t, r)
  {
  }

  lemma HeadKept(list: seq<Entry>, u: Trading, r: Trading)
    requires list != [] && !Listed(list[1..], list[0].id) && Kept(list[1..], u, r) && list[0].id in u.orders
    ensures list[0].id in r.orders && r.orders[list[0].id] == u.orders[list[0].id]
    ensures AheadOf(r.meta, list[0].id) == AheadOf(u.meta, list[0].id)
  {
  }

  lemma {:induction false} TradeFlows(s: Setup, px: real, taker: Side, list: seq<Entry>, t: Trading, k: nat)
    requires RestingList(list, taker.Reverse(), t.orders) && k < |list|
    ensures Flows(s, px, taker, list, t, TradeLoop(s, px, taker, list, t), k)
    decreases |list|
  {
    hide Receives, Absorbed, Arriving, TradeLoop;
    var r := TradeLoop(s, px, taker, list, t);
    assert list[0] in list && list[k] in list;
    if !taker.Crosses(px, list[0].price) {
      CrossingIsMonotone(list, taker, px, t.orders);
      LoopStops(s, px, taker, list, t);
    } else if t.left <= 0.0 {
      LoopStops(s, px, taker, list, t);
      NoneArriving(s, px, list, t, k);
    } else {
      var u := HeadThenTail(s, px, taker, list, t);
      HeadStepEffect(s, px, list[0], t);
      HeadReceives(s, px, list[0], t);
      TradeKeeps(s, px, taker, list[1..], u);
      if k == 0 {
        AllArrives(s, px, list, t);
        HeadKept(list, u, r);
        SameAtHead(s, px, list[0], t, u, r);
      } else {
        TradeFlows(s, px, taker, list[1..], u, k - 1);
        TailUnchanged(list, t, u);
        ArrivingAfterHead(s, px, list, t, u, k);
        assert list[1..][k - 1] == list[k];
        if taker.Crosses(px, list[k].price) {
          LaterReceives(s, px, list[k], Arriving(s, px, list, t, k), t, u, r);
        }
      }
    }
  }

  lemma LoopStops(s: Setup, px: real, taker: Side, list: seq<Entry>, t: Trading)
    requires list != [] && list[0].id in t.orders
    requires t.left <= 0.0 || !taker.Crosses(px, t.orders[list[0].id].price)
    ensures TradeLoop(s, px, taker, list, t) == t
  {
  }

  lemma AllArrives(s: Setup, px: real, list: seq<Entry>, t: Trading)
    requires t.left > 0.0 && forall x :: x in list ==> x.id in t.orders
    ensures Arriving(s, px, list, t, 0) == t.left
  {
  }

  lemma SameAtHead(s: Setup, px: real, x: Entry, t: Trading, u: Trading, r: Trading)
    requires Receives(s, px, x, t.left, t, u) && x.id in r.orders && r.orders[x.id] == u.orders[x.id]
    requires AheadOf(r.meta, x.id) == AheadOf(u.meta, x.id)
    ensures Receives(s, px, x, t.left, t, r)
  {
  }

  lemma TailUnchanged(list: seq<Entry>, t: Trading, u: Trading)
    requires list != [] && !Listed(list[1..], list[0].id)
    requires u.orders.Keys == t.orders.Keys && u.meta.Keys == t.meta.Keys && forall x :: x in list ==> x.id in t.orders
    requires forall id :: id in t.orders && id != list[0].id ==> u.orders[id] == t.orders[id]
    requires forall id :: id in t.meta && id != list[0].id ==> u.meta[id] == t.meta[id]
    ensures forall x :: x in list[1..] ==>
              x.id in u.orders && u.orders[x.id] == t.orders[x.id] && AheadOf(u.meta, x.id) == AheadOf(t.meta, x.id)
  {
    forall x | x in list[1..]
      ensures x in list && x.id != list[0].id
    {
      assert Listed(list[1..], x.id);
    }
  }

  // ---------------------------------------------------------------- the engine's trades

  /**
   The `k`-th order in priority gets what arrives after the orders before it and the queues ahead of them: first the
   queue ahead of it, at its price, then itself. An order that the trade does not cross gets nothing.
   */
  lemma TradeWaterfall(s: Setup, e: Engine, px: real, volume: real, taker: Side, k: nat)
    requires Inv(e) && k < |PriorityList(e, taker.Reverse())|
    ensures var list := PriorityList(e, taker.Reverse());
            && (forall x :: x in list ==> x.id in e.orders)
            && Flows(s, px, taker, list, Trading(e.orders, e.meta, volume, []), Traded(s, e, px, volume, taker), k)
  {
    hide Flows, TradeLoop;
    PriorityListIsResting(e, taker.Reverse());
    TradeFlows(s, px, taker, PriorityList(e, taker.Reverse()), Trading(e.orders, e.meta, volume, []), k);
  }

  /** A trade at an order's own price fills it only once nothing is queued ahead of it any more. */
  lemma QueueBeforeFill(s: Setup, e: Engine, px: real, volume: real, taker: Side, id: Id)
    requires Inv(e) && RestsOn(e, taker.Reverse(), id)
    requires ApproxEq(px, e.orders[id].price, s.PxThreshold())
    ensures var r := Traded(s, e, px, volume, taker);
            id in r.orders && (r.orders[id].open < e.orders[id].open ==> AheadOf(r.meta, id) <= 0.0)
  {
    var k := RankOf(e, taker.Reverse(), id);
    hide Absorbed, Traded;
    TradeWaterfall(s, e, px, volume, taker, k);
  }

  /** The first order of a trade at its price: the queue loses the volume it can, and the order is filled from the rest. */
  lemma FirstInLine(s: Setup, e: Engine, px: real, volume: real, taker: Side)
    requires Inv(e) && PriorityList(e, taker.Reverse()) != []
    requires var first := PriorityList(e, taker.Reverse())[0];
             taker.Crosses(px, first.price) && ApproxEq(px, first.price, s.PxThreshold())
    ensures var (id, r) := (PriorityList(e, taker.Reverse())[0].id, Traded(s, e, px, volume, taker));
            && id in e.orders && id in r.orders
            && var lost := AheadOf(e.meta, id) - AheadOf(r.meta, id);
               && lost == MinReal(AtLeastZero(volume), AtLeastZero(AheadOf(e.meta, id)))
               && e.orders[id].open - r.orders[id].open == MinReal(e.orders[id].open, AtLeastZero(volume) - lost)
  {
    hide Traded;
    TradeWaterfall(s, e, px, volume, taker, 0);
    assert PriorityList(e, taker.Reverse())[..0] == [];
  }

  /** An order that volume reaches beyond the tolerance loses its whole queue, and the order is filled with all of it. */
  lemma TradedThrough(s: Setup, e: Engine, px: real, volume: real, taker: Side, k: nat)
    requires Inv(e) && k < |PriorityList(e, taker.Reverse())|
    requires var x := PriorityList(e, taker.Reverse())[k];
             taker.Crosses(px, x.price) && !ApproxEq(px, x.price, s.PxThreshold())
    ensures var (list, r) := (PriorityList(e, taker.Reverse()), Traded(s, e, px, volume, taker));
            && (forall x :: x in list ==> x.id in e.orders) && list[k].id in r.orders
            && var (id, v) := (list[k].id, Arriving(s, px, list, Trading(e.orders, e.meta, volume, []), k));
               && e.orders[id].open - r.orders[id].open == MinReal(e.orders[id].open, v)
               && (v > 0.0 ==> AheadOf(r.meta, id) == MinReal(AheadOf(e.meta, id), 0.0))
  {
    hide Traded, Absorbed;
    TradeWaterfall(s, e, px, volume, taker, k);
  }

  lemma RankOf(e: Engine, side: Side, id: Id) returns (k: nat)
    requires Inv(e) && RestsOn(e, side, id)
    ensures k < |PriorityList(e, side)| && PriorityList(e, side)[k] == EntryOf(e, id)
    ensures PriorityList(e, side)[k].id == id && PriorityList(e, side)[k].price == e.orders[id].price
  {
    PriorityListIsResting(e, side);
    k :| 0 <= k < |PriorityList(e, side)| && PriorityList(e, side)[k] == EntryOf(e, id);
  }

  // ---------------------------------------------------------------- what owners are told

  /** The report of an order that lost open quantity: that quantity, at the order's own price, as a maker. */
  function ReportOf(id: Id, before: Order, after: Order): seq<Exec> {
    if after.open < before.open then [Exec(id, before.open - after.open, before.price, true)] else []
  }

  ghost function FillReports(list: seq<Entry>, before: map<Id, Order>, after: map<Id, Order>): seq<Exec>
    requires forall x :: x in list ==> x.id in before && x.id in after
  {
    if list == [] then []
    else
      ReportOf(list[0].id, before[list[0].id], after[list[0].id]) + FillReports(list[1..], before, after)
  }

  lemma {:induction false} ReportsAgree(list: seq<Entry>, b1: map<Id, Order>, b2: map<Id, Order>, after: map<Id, Order>)
    requires forall x :: x in list ==> x.id in b1 && x.id in b2 && x.id in after && b1[x.id] == b2[x.id]
    ensures FillReports(list, b1, after) == FillReports(list, b2, after)
  {
    if list != [] {
      ReportsAgree(list[1..], b1, b2, after);
    }
  }

  lemma {:induction false} NoReports(list: seq<Entry>, o: map<Id, Order>)
    requires forall x :: x in list ==> x.id in o
    ensures FillReports(list, o, o) == []
  {
    if list != [] {
      NoReports(list[1..], o);
    }
  }

  lemma HeadReports(s: Setup, px: real, x: Entry, t: Trading)
    requires x.id in t.orders && t.orders[x.id].IsLive() && Sound(t.orders[x.id]) && t.left > 0.0
    ensures var r := HeadStep(s, px, x, t);
            && x.id in r.orders
            && r.execs == t.execs + ReportOf(x.id, t.orders[x.id], r.orders[x.id])
  {
    var passed := PassQueue(s, px, x.id, t.orders[x.id].price, t);
    if passed.left > 0.0 {
      FillMovesOpenToFilled(t.orders[x.id], MinReal(t.orders[x.id].open, passed.left));
    }
  }

  /** The head's step, as the reports need it. */
  lemma HeadThenReports(s: Setup, px: real, taker: Side, list: seq<Entry>, t: Trading) returns (u: Trading)
    requires list != [] && RestingList(list, taker.Reverse(), t.orders) && t.left > 0.0
    requires taker.Crosses(px, list[0].price)
    ensures list[0].id in t.orders && list[0].id in u.orders
    ensures TradeLoop(s, px, taker, list, t) == TradeLoop(s, px, taker, list[1..], u)
    ensures RestingList(list[1..], taker.Reverse(), u.orders) && u.left >= 0.0 && !Listed(list[1..], list[0].id)
    ensures forall x :: x in list[1..] ==> x.id in u.orders && x.id in t.orders && u.orders[x.id] == t.orders[x.id]
    ensures u.execs == t.execs + ReportOf(list[0].id, t.orders[list[0].id], u.orders[list[0].id])
  {
    hide TradeLoop;
    assert list[0] in list;
    u := HeadThenTail(s, px, taker, list, t);
    HeadStepEffect(s, px, list[0], t);
    HeadReports(s, px, list[0], t);
    hide HeadStep;
    TailUnchanged(list, t, u);
  }

  lemma LoopKeepsIds(s: Setup, px: real, taker: Side, list: seq<Entry>, t: Trading)
    requires RestingList(list, taker.Reverse(), t.orders) && t.left >= 0.0
    ensures forall x :: x in list ==> x.id in t.orders && x.id in TradeLoop(s, px, taker, list, t).orders
  {
    hide TradeLoop;
    TradeKeeps(s, px, taker, list, t);
  }

  lemma TailLeavesHead(s: Setup, px: real, taker: Side, list: seq<Entry>, u: Trading)
    requires list != [] && RestingList(list[1..], taker.Reverse(), u.orders) && u.left >= 0.0
    requires !Listed(list[1..], list[0].id) && list[0].id in u.orders
    ensures var r := TradeLoop(s, px, taker, list[1..], u);
            list[0].id in r.orders && r.orders[list[0].id] == u.orders[list[0].id]
  {
    hide TradeLoop, RestingList;
    TradeKeeps(s, px, taker, list[1..], u);
    HeadKept(list, u, TradeLoop(s, px, taker, list[1..], u));
  }

  lemma {:induction false} LoopReports(s: Setup, px: real, taker: Side, list: seq<Entry>, t: Trading)
    requires RestingList(list, taker.Reverse(), t.orders) && t.left >= 0.0
    ensures var r := TradeLoop(s, px, taker, list, t);
            && (forall x :: x in list ==> x.id in t.orders && x.id in r.orders)
            && r.execs == t.execs + FillReports(list, t.orders, r.orders)
    decreases |list|
  {
    hide TradeLoop, FillReports, ReportOf, RestingList, Listed;
    LoopKeepsIds(s, px, taker, list, t);
    if list == [] {
      LoopEnds(s, px, taker, list, t);
      NoReports(list, t.orders);
    } else {
      assert list[0] in list;
      ListedPrice(list, taker.Reverse(), t.orders);
      if t.left <= 0.0 || !taker.Crosses(px, list[0].price) {
        LoopStops(s, px, taker, list, t);
        NoReports(list, t.orders);
      } else {
        var u := HeadThenReports(s, px, taker, list, t);
        LoopReports(s, px, taker, list[1..], u);
        TailLeavesHead(s, px, taker, list, u);
        var r := TradeLoop(s, px, taker, list, t);
        ReportsAgree(list[1..], u.orders, t.orders, r.orders);
        ReportsJoin(list, t, u, r);
      }
    }
  }

  lemma ListedPrice(list: seq<Entry>, side: Side, orders: map<Id, Order>)
    requires list != [] && RestingList(list, side, orders)
    ensures list[0].id in orders && orders[list[0].id].price == list[0].price
  {
    assert list[0] in list;
  }

  lemma ReportsJoin(list: seq<Entry>, t: Trading, u: Trading, r: Trading)
    requires list != [] && forall x :: x in list ==> x.id in t.orders && x.id in r.orders
    requires u.execs == t.execs + ReportOf(list[0].id, t.orders[list[0].id], r.orders[list[0].id])
    requires r.execs == u.execs + FillReports(list[1..], t.orders, r.orders)
    ensures r.execs == t.execs + FillReports(list, t.orders, r.orders)
  {
    hide ReportOf;
    AppendAssociates(t.execs, ReportOf(list[0].id, t.orders[list[0].id], r.orders[list[0].id]),
                     FillReports(list[1..], t.orders, r.orders));
  }

  lemma LoopEnds(s: Setup, px: real, taker: Side, list: seq<Entry>, t: Trading)
    requires list == [] || t.left <= 0.0
    ensures TradeLoop(s, px, taker, list, t) == t
  {
  }

  /** A trade reports exactly the quantity each maker lost, at that maker's own price, in priority order. */
  lemma TradeReports(s: Setup, e: Engine, px: real, volume: real, taker: Side)
    requires Inv(e)
    ensures var (list, r) := (PriorityList(e, taker.Reverse()), Traded(s, e, px, volume, taker));
            && (forall x :: x in list ==> x.id in e.orders && x.id in r.orders)
            && r.execs == FillReports(list, e.orders, r.orders)
  {
    hide TradeLoop, FillReports;
    PriorityListIsResting(e, taker.Reverse());
    var (list, t) := (PriorityList(e, taker.Reverse()), Trading(e.orders, e.meta, volume, []));
    if volume < 0.0 {
      LoopEnds(s, px, taker, list, t);
      NoReports(list, t.orders);
    } else {
      LoopReports(s, px, taker, list, t);
    }
  }
}
