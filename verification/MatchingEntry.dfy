/** What becomes of an order when it reaches the market: by its time in force, the display and the budget. */
module MatchingEntry {
  import opened Book
  import opened Matching
  import opened MatchingTrade
  import opened MatchingDepth
  import opened MatchingRuns
  import opened MatchingBudget

  ghost predicate Pending(e: Engine, id: Id) {
    Inv(e) && id in e.orders && e.orders[id].status == PendingNew
  }

  predicate Usable(o: Order) {
    o.qty > 0.0 && o.price > 0.0
  }

  /** A post-only order never takes: it rests if it does not cross the display, and is cancelled if it does. */
  lemma PostOnlyNeverTakes(s: Setup, e: Engine, id: Id)
    requires Pending(e, id) && e.orders[id].tif.PostOnly?
    ensures var (o, r) := (e.orders[id], Activate(s, e, id));
            && r.drawn == NothingDrawn && r.engine.depth == e.depth && r.engine.orders[id].filled == 0.0
            && (Usable(o) ==> (r.engine.orders[id].IsLive() <==> !CrossesDepth(e, o.side, o.price)))
            && (Usable(o) && CrossesDepth(e, o.side, o.price) ==> r.engine.orders[id].status == Cancelled)
            && (!Usable(o) ==> r.engine.orders[id].status == Rejected)
  {
    hide AssumedQueue;
  }

  /** An immediate-or-cancel order is over at once: never live, never ranked, and untouched unless it crosses the display. */
  lemma ImmediateNeverRests(s: Setup, e: Engine, id: Id)
    requires Pending(e, id) && e.orders[id].tif.Ioc?
    ensures var (o, r) := (e.orders[id], Activate(s, e, id));
            && !r.engine.orders[id].IsLive() && id !in r.engine.meta
            && (Usable(o) && !CrossesDepth(e, o.side, o.price) ==>
                  r.engine.orders[id].status == Cancelled && r.drawn == NothingDrawn)
  {
    hide AssumedQueue, TakeLevels, FillEach;
    var o := e.orders[id];
    if Usable(o) && CrossesDepth(e, o.side, o.price) {
      TakerEffect(e.(nextSeq := e.nextSeq + 1), id);
    }
  }

  lemma TakerEffect(e: Engine, id: Id)
    requires id in e.orders && Sound(e.orders[id]) && e.orders[id].status == PendingNew && Usable(e.orders[id])
    ensures var (o, m) := (e.orders[id], MatchTaker(e, id));
            var taken := TotalQty(m.drawn.Levels(o.side.Reverse()));
            var left := m.engine.orders[id];
            && Sound(left) && left.tif == o.tif && left.side == o.side && left.price == o.price
            && left.filled == taken && left.open == o.open - taken
            && (left.open == 0.0 ==> left.status == Filled) && (left.open > 0.0 ==> !left.IsTerminal())
  {
    var o := e.orders[id];
    var levels := LevelsOf(e.depth, o.side.Reverse());
    WalkFitsDemand(levels, o.side, o.price, o.open);
    FillEachMovesTotal(o, TakeLevels(levels, o.side, o.price, o.open).fills);
  }

  /** A crossing order that may take fills exactly the smaller of its quantity and the budget its limit reaches. */
  lemma CrossingTakesReachable(s: Setup, e: Engine, id: Id)
    requires Pending(e, id) && Usable(e.orders[id]) && !e.orders[id].tif.PostOnly?
    requires CrossesDepth(e, e.orders[id].side, e.orders[id].price)
    requires WellFormed(LevelsOf(e.depth, e.orders[id].side.Reverse()), e.orders[id].side.Reverse())
    ensures var (o, r) := (e.orders[id], Activate(s, e, id));
            && r.engine.orders[id].filled == MinReal(o.qty, Reachable(LevelsOf(e.depth, o.side.Reverse()), o.side, o.price))
            && TotalQty(r.drawn.Levels(o.side.Reverse())) == r.engine.orders[id].filled
            && (o.tif.Gtc? ==> (r.engine.orders[id].IsLive() <==> r.engine.orders[id].filled < o.qty))
            && (o.tif.Ioc? ==>
                  r.engine.orders[id].status == if r.engine.orders[id].filled < o.qty then Cancelled else Filled)
  {
    hide AssumedQueue, FillEach, TakeLevels;
    var o := e.orders[id];
    TakerEffect(e.(nextSeq := e.nextSeq + 1), id);
    TakesExactlyReachable(LevelsOf(e.depth, o.side.Reverse()), o.side, o.price, o.open);
  }

  /** The order's limit does not reach the best price displayed against it; there may be none. */
  predicate ReachesNothing(e: Engine, o: Order) {
    var market := LevelsOf(e.book, o.side.Reverse());
    market == [] || (if o.side.Buy? then o.price < market[0].px else o.price > market[0].px)
  }

  /** An order crosses exactly when there is an opposite best price and its limit is at least as good as that. */
  lemma CrossesIffReaches(e: Engine, o: Order)
    ensures CrossesDepth(e, o.side, o.price) <==> !ReachesNothing(e, o)
  {
  }

  /** The order's own side is displayed in order on a separated grid that holds its price. */
  ghost predicate QueueOnGrid(s: Setup, e: Engine, o: Order, grid: iset<real>) {
    && Separated(grid, s.PxThreshold()) && s.PxThreshold() >= 0.0 && o.price in grid
    && OnGrid(LevelsOf(e.book, o.side), grid) && WellFormed(LevelsOf(e.book, o.side), o.side)
  }

  /**
   An order that may wait and reaches nothing comes to rest untouched, last in arrival, behind the quantity displayed at
   its price times the multiplier; nothing else changes.
   */
  lemma PassiveRests(s: Setup, e: Engine, id: Id, grid: iset<real>)
    requires Pending(e, id) && Usable(e.orders[id]) && !e.orders[id].tif.Ioc? && ReachesNothing(e, e.orders[id])
    ensures var (o, r) := (e.orders[id], Activate(s, e, id));
            && id in r.engine.orders && id in r.engine.meta && r.engine.meta[id].arrival == e.nextSeq
            && r.engine.orders[id] == o.(status := Live) && o.open == o.qty && o.filled == 0.0
            && (forall other :: other != id ==>
                  && (other in r.engine.orders <==> other in e.orders)
                  && (other in e.orders ==> r.engine.orders[other] == e.orders[other]))
            && r.drawn == NothingDrawn && r.engine.book == e.book && r.engine.depth == e.depth
            && (QueueOnGrid(s, e, o, grid) ==>
                  r.engine.meta[id].ahead == QtyAt(LevelsOf(e.book, o.side), o.price) * s.aheadMultiplier)
  {
    hide AssumedQueue, QueueOnGrid, QtyAt;
    var o := e.orders[id];
    assert Activate(s, e, id) == ActivateBehind(e, id, AssumedQueue(s, e, o));
    PassiveState(e, id, AssumedQueue(s, e, o));
    hide ActivateBehind, Inv, Sound;
    if QueueOnGrid(s, e, o, grid) {
      QueueFound(s, e, o, grid);
    }
  }

  lemma QueueFound(s: Setup, e: Engine, o: Order, grid: iset<real>)
    requires QueueOnGrid(s, e, o, grid)
    ensures AssumedQueue(s, e, o) == QtyAt(LevelsOf(e.book, o.side), o.price) * s.aheadMultiplier
  {
    hide QtyAhead, QtyAt;
    QueueIsDisplayed(LevelsOf(e.book, o.side), o.side, o.price, s.PxThreshold(), grid);
  }

  lemma PassiveState(e: Engine, id: Id, ahead: real)
    requires Pending(e, id) && Usable(e.orders[id]) && !e.orders[id].tif.Ioc? && ReachesNothing(e, e.orders[id])
    ensures var (o, r) := (e.orders[id], ActivateBehind(e, id, ahead));
            && id in r.engine.meta && r.engine.meta[id] == Meta(e.nextSeq, ahead)
            && r.engine.orders == e.orders[id := o.(status := Live)] && o.open == o.qty && o.filled == 0.0
            && r.drawn == NothingDrawn && r.engine.book == e.book && r.engine.depth == e.depth
  {
    hide TakeThenSettle, DistinctArrivals;
  }

  /** Activating anything but a pending order changes nothing. */
  lemma OnlyPendingEnter(s: Setup, e: Engine, id: Id)
    requires id !in e.orders || e.orders[id].status != PendingNew
    ensures Activate(s, e, id) == Stepped(e, NothingDrawn)
  {
  }

  /** An order without quantity or price is refused whatever its time in force. */
  lemma UnusableIsRejected(s: Setup, e: Engine, id: Id)
    requires Pending(e, id) && !Usable(e.orders[id])
    ensures var r := Activate(s, e, id);
            && r.engine.orders == e.orders[id := e.orders[id].(status := Rejected)]
            && id !in r.engine.meta && r.drawn == NothingDrawn
            && r.engine.book == e.book && r.engine.depth == e.depth
  {
    hide AssumedQueue;
  }

  // ---------------------------------------------------------------- submitting and cancelling

  /** Rounding gives the largest whole number of lots that fits. */
  lemma LotsFit(qty: real, lot: real)
    requires lot > 0.0 && qty >= 0.0
    ensures var r := RoundDownToLot(qty, lot);
            0.0 <= r <= qty < r + lot && exists n: int :: n >= 0 && r == Multiple(n, lot)
  {
    var n := (qty / lot).Floor;
    Quotient(qty, lot);
    ProductSign(n as real, lot);
    FloorFits(qty, lot);
    assert RoundDownToLot(qty, lot) == Multiple(n, lot);
  }

  lemma FloorFits(qty: real, lot: real)
    requires lot > 0.0
    ensures Multiple((qty / lot).Floor, lot) <= qty < Multiple((qty / lot).Floor, lot) + lot
  {
    var x := qty / lot;
    Quotient(qty, lot);
    LotsBound(x.Floor as real, x, lot, Multiple(x.Floor, lot), qty);
  }

  lemma Quotient(qty: real, lot: real)
    requires lot > 0.0
    ensures qty / lot * lot == qty && (qty >= 0.0 <==> qty / lot >= 0.0)
  {
  }

  lemma ProductSign(n: real, lot: real)
    requires lot > 0.0
    ensures n >= 0.0 ==> n * lot >= 0.0
    ensures n > 0.0 ==> n * lot > 0.0
    ensures n < 0.0 ==> n * lot < 0.0
  {
  }

  lemma LotsBound(n: real, x: real, lot: real, low: real, qty: real)
    requires lot > 0.0 && n <= x < n + 1.0 && low == n * lot && qty == x * lot
    ensures low <= qty < low + lot
  {
    var d, f := x - n, n + 1.0 - x;
    ProductSign(d, lot);
    ProductSign(f, lot);
    assert d * lot == qty - low;
    assert f * lot == (n + 1.0) * lot - qty;
    assert (n + 1.0) * lot == low + lot;
  }

  /** A submitted order waits under a fresh id, unranked, with whole lots of its quantity open. */
  lemma SubmittedWaits(s: Setup, e: Engine, side: Side, price: real, qty: real, tif: Tif)
    requires Inv(e)
    ensures var (r, id) := (Prepare(s, e, side, price, qty, tif), e.nextId);
            && id !in e.orders && r.orders.Keys == e.orders.Keys + {id} && r.nextId > id
            && (forall other :: other in e.orders ==> r.orders[other] == e.orders[other])
            && id !in r.meta && r.meta == e.meta && r.book == e.book && r.depth == e.depth
            && var o := r.orders[id];
               && o.side == side && o.price == price && o.tif == tif && o.status == PendingNew
               && o.open == o.qty && o.filled == 0.0
               && (qty <= 0.0 ==> o.qty == 0.0)
               && (s.lot <= 0.0 && qty >= 0.0 ==> o.qty == qty)
               && (s.lot > 0.0 && qty >= 0.0 ==>
                     o.qty <= qty < o.qty + s.lot && exists n: int :: n >= 0 && o.qty == Multiple(n, s.lot))
  {
    hide Multiple;
    if s.lot > 0.0 && qty >= 0.0 {
      LotsFit(qty, s.lot);
    } else if s.lot > 0.0 {
      NoLots(qty, s.lot);
    }
    assert qty <= 0.0 && s.lot <= 0.0 ==> RoundDownToLot(qty, s.lot) == 0.0;
    hide RoundDownToLot, Sound, Order.IsLive, DistinctArrivals;
  }

  lemma NoLots(qty: real, lot: real)
    requires lot > 0.0 && qty < 0.0
    ensures RoundDownToLot(qty, lot) == 0.0
  {
    Quotient(qty, lot);
    ProductSign((qty / lot).Floor as real, lot);
  }

  /** Cancelling ends an order that is not over, keeps what it has filled, and takes it out of the ranking. */
  lemma CancelEnds(e: Engine, id: Id)
    requires Inv(e) && id in e.orders
    ensures var (o, r) := (e.orders[id], CancelOrder(e, id));
            && r.orders == e.orders[id := if o.IsTerminal() then o else o.(status := Cancelled)]
            && r.meta == e.meta - {id} && !r.orders[id].IsLive() && r.book == e.book && r.depth == e.depth
  {
  }

  /** An order that comes to rest is last among its price and stands behind the assumed queue. */
  lemma RestsAtTheBack(s: Setup, e: Engine, id: Id)
    requires Pending(e, id) && Activate(s, e, id).engine.orders[id].IsLive()
    ensures var r := Activate(s, e, id).engine;
            && id in r.meta && r.meta[id] == Meta(e.nextSeq, AssumedQueue(s, e, e.orders[id]))
            && forall other :: other in r.meta && other != id ==> r.meta[other].arrival < r.meta[id].arrival
  {
    hide AssumedQueue, FillEach, TakeLevels;
    var o := e.orders[id];
    if Usable(o) && CrossesDepth(e, o.side, o.price) {
      TakerEffect(e.(nextSeq := e.nextSeq + 1), id);
    }
  }

  /** On a separated grid the queue found ahead is the quantity displayed at the order's own price. */
  lemma {:induction false} QueueIsDisplayed(levels: seq<Level>, side: Side, price: real, threshold: real,
                                            grid: iset<real>)
    requires Separated(grid, threshold) && threshold >= 0.0 && OnGrid(levels, grid) && price in grid
    requires WellFormed(levels, side)
    ensures QtyAhead(levels, side, price, threshold) == QtyAt(levels, price)
  {
    if levels != [] {
      assert levels[0] in levels;
      if side.IsMorePassive(levels[0].px, price) || levels[0].px == price {
        forall l | l in levels[1..]
          ensures l.px != price
        {
          var i :| 0 <= i < |levels[1..]| && levels[1..][i] == l;
          assert levels[i + 1] == l && BestFirst(side)(levels[0], levels[i + 1]);
        }
        AbsentMeansZero(levels[1..], price);
      } else {
        assert !ApproxEq(levels[0].px, price, threshold);
        QueueIsDisplayed(levels[1..], side, price, threshold, grid);
      }
    }
  }
}
