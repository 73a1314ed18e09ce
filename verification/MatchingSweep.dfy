/** What a sweep does to single orders: their queues, their fills at explicit limits, and what their owners are told. */
module MatchingSweep {
  import opened Common
  import opened Book
  import opened Matching
  import opened MatchingTrade
  import opened MatchingDepth
  import opened MatchingRuns
  import opened MatchingEntry

  // ---------------------------------------------------------------- queues

  /** The displayed book clears the queue of every order it crosses and leaves the others in place. */
  ghost predicate QueueSwept(best: Option<Level>, maker: Side, x: Entry, before: map<Id, Meta>, after: map<Id, Meta>) {
    x.id in before ==>
      && x.id in after
      && after[x.id] == if CrossedBy(best, maker, x.price) then before[x.id].(ahead := 0.0) else before[x.id]
  }

  lemma {:induction false} UnlistedQueue(s: Setup, best: Option<Level>, maker: Side, list: seq<Entry>, w: Sweeping,
                                         id: Id)
    requires RestingList(list, maker, w.orders) && !Listed(list, id)
    ensures var r := SweepLoop(s, best, maker, list, w);
            (id in r.meta <==> id in w.meta) && (id in w.meta ==> r.meta[id] == w.meta[id])
    decreases |list|
  {
    if list != [] && CrossedBy(best, maker, list[0].price) {
      assert list[0] in list;
      var u := SweepHeadThenTail(s, best, maker, list, w);
      hide SweepLoop;
      assert forall x :: x in list[1..] ==> x in list;
      UnlistedQueue(s, best, maker, list[1..], u, id);
    } else {
      assert list != [] ==> list[0] in list;
    }
  }

  lemma {:induction false} SweepClearsQueues(s: Setup, best: Option<Level>, maker: Side, list: seq<Entry>, w: Sweeping,
                                             k: nat)
    requires RestingList(list, maker, w.orders) && k < |list|
    ensures QueueSwept(best, maker, list[k], w.meta, SweepLoop(s, best, maker, list, w).meta)
    decreases |list|
  {
    hide SweepLoop, SweepOne;
    assert list[0] in list && list[k] in list;
    if !CrossedBy(best, maker, list[0].price) {
      CrossedIsMonotone(best, maker, list, w.orders);
      SweepStops(s, best, maker, list, w);
    } else {
      var u := SweepHeadThenTail(s, best, maker, list, w);
      HeadQueue(s, maker, list[0].id, w);
      hide RestingList;
      if k == 0 {
        UnlistedQueue(s, best, maker, list[1..], u, list[0].id);
      } else {
        SweepClearsQueues(s, best, maker, list[1..], u, k - 1);
        assert list[1..][k - 1] == list[k] && Listed(list[1..], list[k].id);
      }
    }
  }

  lemma SweepStops(s: Setup, best: Option<Level>, maker: Side, list: seq<Entry>, w: Sweeping)
    requires list != [] && list[0].id in w.orders && !CrossedBy(best, maker, w.orders[list[0].id].price)
    ensures SweepLoop(s, best, maker, list, w) == w
  {
  }

  lemma HeadQueue(s: Setup, maker: Side, id: Id, w: Sweeping)
    requires id in w.orders
    ensures SweepOne(s, maker, id, w).meta == if id in w.meta then w.meta[id := w.meta[id].(ahead := 0.0)] else w.meta
  {
    hide TakeLevels, FillEach, MatchingLimit;
  }

  // ---------------------------------------------------------------- the first order

  /** The worst price at which depth fills a resting order: past its own price by the threshold. */
  function OverCrossLimit(s: Setup, o: Order): real {
    o.price - (if o.side.Buy? then s.depthThreshold else -s.depthThreshold) * o.price
  }

  lemma LimitIs(s: Setup, o: Order)
    ensures MatchingLimit(s, o.side, o.price) == OverCrossLimit(s, o)
  {
  }

  lemma FirstOfLoop(s: Setup, best: Option<Level>, maker: Side, list: seq<Entry>, w: Sweeping)
    requires list != [] && RestingList(list, maker, w.orders) && CrossedBy(best, maker, list[0].price)
    requires WellFormed(w.levels, maker.Reverse())
    ensures var (id, r) := (list[0].id, SweepLoop(s, best, maker, list, w));
            && id in w.orders && id in r.orders
            && w.orders[id].open - r.orders[id].open
               == MinReal(w.orders[id].open, Reachable(w.levels, maker, MatchingLimit(s, maker, list[0].price)))
  {
    hide MatchingLimit, TakeLevels, WellFormed;
    assert list[0] in list;
    var o := w.orders[list[0].id];
    SweepOneEffect(s, maker, list[0], w);
    var u := SweepHeadThenTail(s, best, maker, list, w);
    hide SweepLoop, SweepOne;
    SweepKeeps(s, best, maker, list[1..], u);
    TakesExactlyReachable(w.levels, maker, MatchingLimit(s, maker, list[0].price), o.open);
  }

  /** The crossed order with the best priority fills with all the budget past its limit, up to its open quantity. */
  lemma FirstSwept(s: Setup, e: Engine, maker: Side)
    requires Inv(e) && PriorityList(e, maker) != [] && WellFormed(LevelsOf(e.depth, maker.Reverse()), maker.Reverse())
    requires CrossedBy(BestOf(e.book, maker.Reverse()), maker, PriorityList(e, maker)[0].price)
    ensures var (id, r) := (PriorityList(e, maker)[0].id, SweepSide(s, e, maker).engine);
            && id in e.orders && id in r.orders
            && e.orders[id].open - r.orders[id].open
               == MinReal(e.orders[id].open,
                          Reachable(LevelsOf(e.depth, maker.Reverse()), maker, OverCrossLimit(s, e.orders[id])))
  {
    hide SweepLoop, MatchingLimit, OverCrossLimit, WellFormed, Reachable;
    PriorityListIsResting(e, maker);
    var best, list := BestOf(e.book, maker.Reverse()), PriorityList(e, maker);
    assert list[0] in list;
    LimitIs(s, e.orders[list[0].id]);
    FirstOfLoop(s, best, maker, list, Sweeping(e.orders, e.meta, LevelsOf(e.depth, maker.Reverse()), [], []));
  }

  // ---------------------------------------------------------------- reports

  function ReportedQty(execs: seq<Exec>, id: Id): real {
    if execs == [] then 0.0 else (if execs[0].id == id then execs[0].qty else 0.0) + ReportedQty(execs[1..], id)
  }

  lemma {:induction false} ReportedAppends(a: seq<Exec>, b: seq<Exec>, id: Id)
    ensures ReportedQty(a + b, id) == ReportedQty(a, id) + ReportedQty(b, id)
  {
    if a == [] {
      assert a + b == b;
    } else {
      assert (a + b)[1..] == a[1..] + b;
      ReportedAppends(a[1..], b, id);
    }
  }

  lemma {:induction false} ReportedOfMaker(id: Id, px: real, fills: seq<Level>, other: Id)
    ensures ReportedQty(MakerExecs(id, px, fills), other) == if other == id then TotalQty(fills) else 0.0
  {
    if fills != [] {
      ReportedOfMaker(id, px, fills[1..], other);
      assert MakerExecs(id, px, fills)[1..] == MakerExecs(id, px, fills[1..]);
    }
  }

  /** A maker's report: something filled, at the order's own price. */
  ghost predicate MakerReport(orders: map<Id, Order>, x: Exec) {
    x.id in orders && x.maker && x.qty > 0.0 && x.px == orders[x.id].price
  }

  ghost predicate NewReports(orders: map<Id, Order>, before: seq<Exec>, after: seq<Exec>) {
    before <= after && forall i :: |before| <= i < |after| ==> MakerReport(orders, after[i])
  }

  lemma ReportsThen(o: map<Id, Order>, p: map<Id, Order>, a: seq<Exec>, b: seq<Exec>, c: seq<Exec>)
    requires NewReports(o, a, b) && NewReports(p, b, c)
    requires p.Keys == o.Keys && forall id :: id in o ==> p[id].price == o[id].price
    ensures NewReports(o, a, c)
  {
    forall i | |a| <= i < |c|
      ensures MakerReport(o, c[i])
    {
      if i < |b| {
        assert c[i] == b[i] && MakerReport(o, b[i]);
      } else {
        assert MakerReport(p, c[i]);
      }
    }
  }

  lemma OneReports(s: Setup, maker: Side, x: Entry, w: Sweeping, id: Id)
    requires x.id in w.orders && w.orders[x.id].IsLive() && Sound(w.orders[x.id]) && w.orders[x.id].price == x.price
    requires id in w.orders
    ensures var u := SweepOne(s, maker, x.id, w);
            && NewReports(w.orders, w.execs, u.execs) && id in u.orders
            && ReportedQty(u.execs, id) - ReportedQty(w.execs, id) == w.orders[id].open - u.orders[id].open
            && u.orders.Keys == w.orders.Keys && forall k :: k in w.orders ==> u.orders[k].price == w.orders[k].price
  {
    SweepOneEffect(s, maker, x, w);
    hide MatchingLimit, FillEach, TakeLevels;
    var fills := TakeLevels(w.levels, maker, MatchingLimit(s, maker, x.price), w.orders[x.id].open).fills;
    ReportedAppends(w.execs, MakerExecs(x.id, x.price, fills), id);
    ReportedOfMaker(x.id, x.price, fills, id);
  }

  lemma {:induction false} SweepReports(s: Setup, best: Option<Level>, maker: Side, list: seq<Entry>, w: Sweeping,
                                        id: Id)
    requires RestingList(list, maker, w.orders) && id in w.orders
    ensures var r := SweepLoop(s, best, maker, list, w);
            && NewReports(w.orders, w.execs, r.execs) && id in r.orders
            && ReportedQty(r.execs, id) - ReportedQty(w.execs, id) == w.orders[id].open - r.orders[id].open
    decreases |list|
  {
    if list != [] && CrossedBy(best, maker, list[0].price) {
      assert list[0] in list;
      OneReports(s, maker, list[0], w, id);
      var u := SweepHeadThenTail(s, best, maker, list, w);
      hide SweepLoop, SweepOne, RestingList, ReportedQty;
      SweepReports(s, best, maker, list[1..], u, id);
      ReportsThen(w.orders, u.orders, w.execs, u.execs, SweepLoop(s, best, maker, list, w).execs);
    } else {
      assert list != [] ==> list[0] in list;
    }
  }

  /** A sweep reports to each owner, at the order's own price and as a maker, exactly what the order was filled. */
  lemma SweptReports(s: Setup, e: Engine, maker: Side, id: Id)
    requires Inv(e) && id in e.orders
    ensures var r := Swept(s, e, maker);
            && NewReports(e.orders, [], r.execs) && id in r.orders
            && ReportedQty(r.execs, id) == e.orders[id].open - r.orders[id].open
  {
    hide SweepLoop;
    PriorityListIsResting(e, maker);
    SweepReports(s, BestOf(e.book, maker.Reverse()), maker, PriorityList(e, maker),
                 Sweeping(e.orders, e.meta, LevelsOf(e.depth, maker.Reverse()), [], []), id);
  }

  lemma {:induction false} ReportedOfTaker(id: Id, execs: seq<Exec>, fills: seq<Level>)
    requires |execs| == |fills| && forall i :: 0 <= i < |fills| ==> execs[i].id == id && execs[i].qty == fills[i].qty
    ensures ReportedQty(execs, id) == TotalQty(fills)
  {
    if fills != [] {
      ReportedOfTaker(id, execs[1..], fills[1..]);
    }
  }

  /** A taker's report: something filled, at a price its limit reaches. */
  predicate TakerReport(id: Id, o: Order, x: Exec) {
    x.id == id && !x.maker && x.qty > 0.0 && (if o.side.Buy? then x.px <= o.price else x.px >= o.price)
  }

  /** Only a usable order that crosses and is not post-only draws anything, and then what matching it draws. */
  lemma EnteringDraws(s: Setup, e: Engine, id: Id)
    requires Pending(e, id)
    ensures var (o, r) := (e.orders[id], Activate(s, e, id));
            var m := MatchTaker(e.(nextSeq := e.nextSeq + 1), id);
            && id in r.engine.orders
            && if Usable(o) && CrossesDepth(e, o.side, o.price) && !o.tif.PostOnly?
               then r.drawn == m.drawn && r.engine.orders[id].filled == m.engine.orders[id].filled
               else r.drawn == NothingDrawn && r.engine.orders[id].filled == 0.0
  {
    hide AssumedQueue, TakeLevels, FillEach, DistinctArrivals;
  }

  lemma MatchReports(e: Engine, id: Id)
    requires id in e.orders && Sound(e.orders[id]) && e.orders[id].status == PendingNew && Usable(e.orders[id])
    ensures var (o, m) := (e.orders[id], MatchTaker(e, id));
            var execs := TakerExecs(id, m.drawn);
            && (forall i :: 0 <= i < |execs| ==> TakerReport(id, o, execs[i]))
            && ReportedQty(execs, id) == m.engine.orders[id].filled
  {
    var o := e.orders[id];
    TakerEffect(e, id);
    var levels := LevelsOf(e.depth, o.side.Reverse());
    var fills := TakeLevels(levels, o.side, o.price, o.open).fills;
    WalkFitsDemand(levels, o.side, o.price, o.open);
    WalkTakesWithinReach(levels, o.side, o.price, o.open);
    hide TakeLevels, FillEach, Walk, ReportedQty;
    var drawn := DrawnFrom(o.side.Reverse(), fills);
    assert drawn.bids + drawn.asks == fills;
    ReportedOfTaker(id, TakerExecs(id, drawn), fills);
  }

  /** An entering order's reports are takes within its limit that add up to what it filled. */
  lemma TakerReports(s: Setup, e: Engine, id: Id)
    requires Pending(e, id)
    ensures var (o, r) := (e.orders[id], Activate(s, e, id));
            var execs := TakerExecs(id, r.drawn);
            && id in r.engine.orders
            && (forall i :: 0 <= i < |execs| ==> TakerReport(id, o, execs[i]))
            && ReportedQty(execs, id) == r.engine.orders[id].filled
  {
    EnteringDraws(s, e, id);
    var o, m := e.orders[id], e.(nextSeq := e.nextSeq + 1);
    hide Activate, MatchTaker, CrossesDepth, DistinctArrivals;
    if Usable(o) {
      MatchReports(m, id);
    }
  }
}
