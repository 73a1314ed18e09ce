/** Depth snapshots leave no fill undone, and a fraction of exactly one can over-spend. */
module MatchingOutcome {
  import opened Common
  import opened Book
  import opened Matching
  import opened MatchingDepth
  import opened MatchingRuns
  import opened MatchingBudget

  // ---------------------------------------------------------------- no fill is missed

  /** The side of the books that the makers of one side trade against is in order. */
  ghost predicate MarketInOrder(e: Engine, maker: Side) {
    var market := maker.Reverse();
    && WellFormed(LevelsOf(e.depth, market), market)
    && Sorted(LevelsOf(e.book, market), market)
    && PricesWithin(LevelsOf(e.depth, market), LevelsOf(e.book, market))
  }

  lemma SweepSideMissesNone(s: Setup, e: Engine, maker: Side, id: Id)
    requires Consistent(e) && ValidSetup(s) && MarketInOrder(e, maker)
    requires RestsOn(SweepSide(s, e, maker).engine, maker, id)
    ensures var r := SweepSide(s, e, maker).engine;
            NothingToTake(s, maker, r.orders[id].price, LevelsOf(r.depth, maker.Reverse()))
  {
    hide MatchingLimit;
    var market := maker.Reverse();
    var best, list := BestOf(e.book, market), PriorityList(e, maker);
    var w := Sweeping(e.orders, e.meta, LevelsOf(e.depth, market), [], []);
    var r := SweepLoop(s, best, maker, list, w);
    SweepSideKeeps(s, e, maker);
    SweptOrder(s, e, maker, id);
    PriorityListIsResting(e, maker);
    assert EntryOf(e, id) in list;
    SweepOnlyRemoves(s, best, maker, list, w);
    if CrossedBy(best, maker, e.orders[id].price) {
      SweepMissesNoFill(s, best, maker, list, w);
    } else {
      PricesCompose(r.levels, w.levels, LevelsOf(e.book, market));
      UncrossedFacesNothing(s, LevelsOf(e.book, market), r.levels, maker, e.orders[id].price);
    }
    if e.depth.Some? {
      assert LevelsOf(SweepSide(s, e, maker).engine.depth, market) == r.levels;
    }
  }

  /** A sweep leaves the other side's orders and budget alone. */
  lemma SweepLeavesOtherSide(s: Setup, e: Engine, maker: Side, id: Id)
    requires Consistent(e) && id in e.orders && !RestsOn(e, maker, id)
    ensures var r := SweepSide(s, e, maker).engine;
            && id in r.orders && r.orders[id] == e.orders[id]
            && r.book == e.book && LevelsOf(r.depth, maker) == LevelsOf(e.depth, maker)
  {
    hide Swept;
    SweptOrder(s, e, maker, id);
  }

  lemma {:induction false} WithinSorted(m: seq<Level>, d: seq<Level>, fraction: real, side: Side)
    requires Within(m, d, fraction) && Sorted(d, side)
    ensures Sorted(m, side)
    decreases |d|
  {
    if m != [] {
      assert Sorted(d[1..], side);
      if m[0].px == d[0].px && m[0].qty <= fraction * d[0].qty && Within(m[1..], d[1..], fraction) {
        WithinSorted(m[1..], d[1..], fraction, side);
        WithinPrices(m[1..], d[1..], fraction);
        forall i, j | 0 <= i < j < |m| ensures BestFirst(side)(m[i], m[j]) {
          assert m[j] == m[1..][j - 1];
          if i == 0 {
            assert m[j] in m[1..];
            var k :| 0 <= k < |d[1..]| && d[1..][k].px == m[j].px;
            assert BestFirst(side)(d[0], d[k + 1]);
          } else {
            assert m[i] == m[1..][i - 1];
          }
        }
      } else {
        WithinSorted(m, d[1..], fraction, side);
      }
    }
  }

  lemma ShownInOrder(s: Setup, e: Engine, shown: OrderBook, maker: Side)
    requires WellFormed(shown.Levels(maker.Reverse()), maker.Reverse())
    ensures MarketInOrder(Shown(s, e, shown), maker)
  {
    var market := maker.Reverse();
    var d := shown.Levels(market);
    ShownIsBudgeted(s, e, shown);
    var m := LevelsOf(Shown(s, e, shown).depth, market);
    assert Within(m, d, s.depthFraction);
    WithinPrices(m, d, s.depthFraction);
    if s.depthFraction != 1.0 {
      WithinSorted(m, d, s.depthFraction, market);
      WithinUnique(m, d, s.depthFraction);
      CapacityAt(d, LevelsOf(e.book, market), LevelsOf(e.depth, market), s.depthFraction, s.PxThreshold(), 0.0);
    }
  }

  /**
   After a snapshot with best-first, positive sides, no live order faces a level of the remaining budget that it
   over-crosses by the threshold: every fill the budget could pay for has been made.
   */
  lemma DepthMissesNoFill(s: Setup, e: Engine, shown: OrderBook, id: Id)
    requires Inv(e) && ValidSetup(s)
    requires WellFormed(shown.bids, Buy) && WellFormed(shown.asks, Sell)
    requires var r := OnDepth(s, e, shown).engine; id in r.orders && r.orders[id].IsLive()
    ensures var r := OnDepth(s, e, shown).engine;
            && NothingToTake(s, r.orders[id].side, r.orders[id].price, LevelsOf(r.depth, r.orders[id].side.Reverse()))
            && var o := r.orders[id];
               forall l :: l in LevelsOf(r.depth, o.side.Reverse()) ==>
                 if o.side.Buy? then l.px > o.price - s.depthThreshold * o.price
                 else l.px < o.price + s.depthThreshold * o.price
  {
    hide OnDepth, NothingToTake, Inv, WellFormed, LevelsOf;
    DepthLeavesNothing(s, e, shown, id);
    var r := OnDepth(s, e, shown).engine;
    LimitMeans(s, r.orders[id], LevelsOf(r.depth, r.orders[id].side.Reverse()));
  }

  lemma LimitMeans(s: Setup, o: Order, levels: seq<Level>)
    requires NothingToTake(s, o.side, o.price, levels)
    ensures forall l :: l in levels ==>
              if o.side.Buy? then l.px > o.price - s.depthThreshold * o.price
              else l.px < o.price + s.depthThreshold * o.price
  {
    assert MatchingLimit(s, o.side, o.price)
           == if o.side.Buy? then o.price - s.depthThreshold * o.price else o.price + s.depthThreshold * o.price;
    hide MatchingLimit;
  }

  lemma DepthLeavesNothing(s: Setup, e: Engine, shown: OrderBook, id: Id)
    requires Inv(e) && ValidSetup(s)
    requires WellFormed(shown.bids, Buy) && WellFormed(shown.asks, Sell)
    requires var r := OnDepth(s, e, shown).engine; id in r.orders && r.orders[id].IsLive()
    ensures var r := OnDepth(s, e, shown).engine;
            NothingToTake(s, r.orders[id].side, r.orders[id].price, LevelsOf(r.depth, r.orders[id].side.Reverse()))
  {
    hide NextDepth, Swept, NothingToTake;
    var e0 := Shown(s, e, shown);
    var e1 := SweepSide(s, e0, Sell).engine;
    var e2 := SweepSide(s, e1, Buy).engine;
    ConsistentIgnoresBooks(e, e0);
    SweepSideKeeps(s, e0, Sell);
    SweepSideKeeps(s, e1, Buy);
    ShownInOrder(s, e, shown, Sell);
    ShownInOrder(s, e, shown, Buy);
    SweptOrder(s, e1, Buy, id);
    if e2.orders[id].side == Sell {
      SweepLeavesOtherSide(s, e1, Buy, id);
      SweepSideMissesNone(s, e0, Sell, id);
    } else {
      SweptOrder(s, e0, Sell, id);
      SweepLeavesOtherSide(s, e0, Sell, id);
      SweepSideMissesNone(s, e1, Buy, id);
    }
  }

  // ---------------------------------------------------------------- a fraction of exactly one

  lemma RunExtends(s: Setup, events: seq<Event>, event: Event, side: Side, px: real)
    ensures var r := StepEvent(s, RunEngine(s, events), event);
            && RunEngine(s, events + [event]) == r.engine
            && Spent(s, events + [event], side, px) == Spent(s, events, side, px) + QtyAt(r.drawn.Levels(side), px)
  {
    hide StepEvent, QtyAt;
    assert (events + [event])[..|events|] == events;
  }

  lemma QuietSweep(s: Setup, e: Engine, maker: Side)
    requires e.meta == map[]
    ensures SweepSide(s, e, maker) == Stepped(e, NothingDrawn)
  {
    var list := PriorityList(e, maker);
    assert RankedIds(e, maker) == {};
    assert list == [];
  }

  /** With fraction one and nothing resting, a snapshot makes the whole display available again. */
  lemma FullSnapshotRefills(s: Setup, e: Engine, shown: OrderBook)
    requires s.depthFraction == 1.0 && e.meta == map[]
    ensures OnDepth(s, e, shown) == Stepped(e.(book := Some(shown), depth := Some(shown)), NothingDrawn)
  {
    hide SweepSide;
    var e0 := Shown(s, e, shown);
    QuietSweep(s, e0, Sell);
    QuietSweep(s, e0, Buy);
    assert RemoveTerminal(e.orders, e.meta) == map[];
  }

  function OneAsk(px: real, qty: real): OrderBook {
    OrderBook(0, [], [Level(px, qty)])
  }

  /** An immediate-or-cancel buy of exactly the displayed ask empties the budget and leaves nothing resting. */
  lemma BuyTakesAll(s: Setup, e: Engine, px: real, qty: real)
    requires px > 0.0 && qty > 0.0 && RoundDownToLot(qty, s.lot) == qty
    requires e.meta == map[] && e.book == Some(OneAsk(px, qty)) && e.depth == Some(OneAsk(px, qty))
    ensures var e1 := Prepare(s, e, Buy, px, qty, Ioc);
            var r := Activate(s, e1, e.nextId);
            && r.engine.meta == map[] && r.engine.nextId == e.nextId + 1
            && r.drawn == Drawn([], [Level(px, qty)])
  {
    hide AssumedQueue, RoundDownToLot;
    var e1 := Prepare(s, e, Buy, px, qty, Ioc);
    var o := e1.orders[e.nextId];
    var taken := TakeLevels(OneAsk(px, qty).asks, Buy, px, qty);
    assert Walk([Level(px, qty)][1..], Buy, px, 0.0) == Taken([], []);
    assert taken.fills == [Level(px, qty)];
    assert FillEach(o, taken.fills) == o.Fill(qty);
    assert o.Fill(qty).open == 0.0;
  }

  ghost function Twice(px: real, qty: real): seq<Event> {
    [DepthShown(OneAsk(px, qty)), Prepared(Buy, px, qty, Ioc), Activated(1)]
    + [DepthShown(OneAsk(px, qty)), Prepared(Buy, px, qty, Ioc), Activated(2)]
  }

  lemma RefillRound(s: Setup, events: seq<Event>, px: real, qty: real)
    requires s.depthFraction == 1.0 && px > 0.0 && qty > 0.0 && RoundDownToLot(qty, s.lot) == qty
    requires RunEngine(s, events).meta == map[]
    ensures var round := [DepthShown(OneAsk(px, qty)), Prepared(Buy, px, qty, Ioc), Activated(RunEngine(s, events).nextId)];
            && RunEngine(s, events + round).meta == map[]
            && RunEngine(s, events + round).nextId == RunEngine(s, events).nextId + 1
            && Spent(s, events + round, Sell, px) == Spent(s, events, Sell, px) + qty
  {
    hide Prepare, Activate, OnDepth, RoundDownToLot, RunEngine, Spent;
    var e := RunEngine(s, events);
    var a, b, c := DepthShown(OneAsk(px, qty)), Prepared(Buy, px, qty, Ioc), Activated(e.nextId);
    RunExtends(s, events, a, Sell, px);
    RunExtends(s, events + [a], b, Sell, px);
    RunExtends(s, events + [a] + [b], c, Sell, px);
    FullSnapshotRefills(s, e, OneAsk(px, qty));
    BuyTakesAll(s, e.(book := Some(OneAsk(px, qty)), depth := Some(OneAsk(px, qty))), px, qty);
    assert events + [a] + [b] + [c] == events + [a, b, c];
  }

  lemma TwiceSpends(s: Setup, px: real, qty: real)
    requires s.depthFraction == 1.0 && px > 0.0 && qty > 0.0 && RoundDownToLot(qty, s.lot) == qty
    ensures Spent(s, Twice(px, qty), Sell, px) == qty + qty
  {
    hide RoundDownToLot, StepEvent, QtyAt;
    var round := Twice(px, qty)[..3];
    assert [] + round == round;
    RefillRound(s, [], px, qty);
    RefillRound(s, round, px, qty);
    assert Twice(px, qty) == round + Twice(px, qty)[3..];
  }

  lemma TwiceGrows(px: real, qty: real)
    requires qty > 0.0
    ensures Grown(Twice(px, qty), Sell, px) == qty
  {
    var t := Twice(px, qty);
    assert t[..6][..5] == t[..5] && t[..5][..4] == t[..4] && t[..4][..3] == t[..3]
        && t[..3][..2] == t[..2] && t[..2][..1] == t[..1] && t[..1][..0] == [] && t[..6] == t;
    assert QtyAt([Level(px, qty)], px) == qty;
    assert LastShown(t[..1]) == Some(OneAsk(px, qty)) && Grown(t[..1], Sell, px) == qty;
    assert LastShown(t[..2]) == Some(OneAsk(px, qty)) && Grown(t[..2], Sell, px) == qty;
    assert LastShown(t[..3]) == Some(OneAsk(px, qty)) && Grown(t[..3], Sell, px) == qty;
    assert Grown(t[..4], Sell, px) == qty;
  }

  /** The over-spending bound, for every run and price. */
  ghost predicate BoundHolds(s: Setup) {
    forall events, side: Side, px: real, grid: iset<real> {:trigger Allowance(s, events, side, px), GridRun(events, grid)} ::
      Separated(grid, s.PxThreshold()) && GridRun(events, grid) && px in grid ==>
        Spent(s, events, side, px) <= Allowance(s, events, side, px)
  }

  lemma LotRounds(lot: real)
    ensures RoundDownToLot(if lot > 0.0 then lot else 1.0, lot) == if lot > 0.0 then lot else 1.0
  {
    if lot > 0.0 {
      assert lot / lot == 1.0;
    }
  }

  /** The bound holds of every run exactly when the fraction is below one; at one, two rounds of one ask break it. */
  lemma BoundHoldsIffFractional(s: Setup)
    requires ValidSetup(s)
    ensures BoundHolds(s) <==> s.depthFraction < 1.0
  {
    hide Spent, Grown;
    if s.depthFraction < 1.0 {
      forall events, side: Side, px: real, grid: iset<real>
        | Separated(grid, s.PxThreshold()) && GridRun(events, grid) && px in grid
        ensures Spent(s, events, side, px) <= Allowance(s, events, side, px)
      {
        NeverOverspent(s, events, side, px, grid);
      }
    } else {
      var qty := if s.lot > 0.0 then s.lot else 1.0;
      var events := Twice(s.tick, qty);
      LotRounds(s.lot);
      TwiceSpends(s, s.tick, qty);
      TwiceGrows(s.tick, qty);
      assert Separated(iset{s.tick}, s.PxThreshold());
      assert GridRun(events, iset{s.tick});
      assert Allowance(s, events, Sell, s.tick) == qty;
    }
  }
}
