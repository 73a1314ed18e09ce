/** What a depth snapshot may and must do to the resting orders of one side. */
module MatchingDepth {
  import opened Common
  import opened Book
  import opened Matching
  import opened MatchingTrade

  // ---------------------------------------------------------------- one order against the budget

  lemma {:induction false} TotalNonNegative(fills: seq<Level>)
    requires PositiveQty(fills)
    ensures TotalQty(fills) >= 0.0 && (fills != [] ==> TotalQty(fills) > 0.0)
  {
    if fills != [] {
      TotalNonNegative(fills[1..]);
    }
  }

  lemma {:induction false} WalkFitsDemand(levels: seq<Level>, taker: Side, limitPx: real, qty: real)
    requires qty >= 0.0
    ensures PositiveQty(Walk(levels, taker, limitPx, qty).fills)
    ensures TotalQty(Walk(levels, taker, limitPx, qty).fills) <= qty
  {
    if levels != [] && qty > 0.0 && Takeable(taker, limitPx, levels[0]) {
      WalkFitsDemand(levels[1..], taker, limitPx, qty - MinReal(qty, levels[0].qty));
    }
  }

  /** Fills that fit the open quantity all go through. */
  lemma {:induction false} FillEachMovesTotal(o: Order, fills: seq<Level>)
    requires Sound(o) && !o.IsTerminal() && o.price > 0.0
    requires PositiveQty(fills) && TotalQty(fills) <= o.open
    ensures var f := FillEach(o, fills);
            && Sound(f) && f.side == o.side && f.price == o.price && f.qty == o.qty && f.tif == o.tif
            && f.open == o.open - TotalQty(fills) && f.filled == o.filled + TotalQty(fills)
            && f.status == (if fills == [] then o.status else if f.open == 0.0 then Filled else PartiallyFilled)
    decreases |fills|
  {
    if fills != [] {
      TotalNonNegative(fills[1..]);
      FillMovesOpenToFilled(o, fills[0].qty);
      if fills[1..] != [] {
        FillEachMovesTotal(o.Fill(fills[0].qty), fills[1..]);
      }
    }
  }

  /** Demand left over after a take means that nothing it reaches is left. */
  lemma {:induction false} UnmetDemandExhausts(levels: seq<Level>, taker: Side, limitPx: real, qty: real)
    requires WellFormed(levels, taker.Reverse()) && qty > 0.0
    requires TotalQty(TakeLevels(levels, taker, limitPx, qty).fills) < qty
    ensures forall l :: l in TakeLevels(levels, taker, limitPx, qty).rest ==> !taker.Crosses(limitPx, l.px)
  {
    if levels == [] {
    } else if !taker.Crosses(limitPx, levels[0].px) {
      forall l | l in TakeLevels(levels, taker, limitPx, qty).rest ensures !taker.Crosses(limitPx, l.px) {
        assert l in levels;
        var k :| 0 <= k < |levels| && levels[k] == l;
        assert k == 0 || BestFirst(taker.Reverse())(levels[0], levels[k]);
      }
    } else {
      WalkFitsDemand(levels[1..], taker, limitPx, qty - MinReal(qty, levels[0].qty));
      UnmetDemandExhausts(levels[1..], taker, limitPx, qty - levels[0].qty);
    }
  }

  lemma {:induction false} TotalAppends(a: seq<Level>, b: seq<Level>)
    ensures TotalQty(a + b) == TotalQty(a) + TotalQty(b)
  {
    if a == [] {
      assert a + b == b;
    } else {
      assert (a + b)[1..] == a[1..] + b;
      TotalAppends(a[1..], b);
    }
  }

  lemma {:induction false} QtyAtAppends(a: seq<Level>, b: seq<Level>, px: real)
    ensures QtyAt(a + b, px) == QtyAt(a, px) + QtyAt(b, px)
  {
    if a == [] {
      assert a + b == b;
    } else {
      assert (a + b)[1..] == a[1..] + b;
      QtyAtAppends(a[1..], b, px);
    }
  }

  lemma {:induction false} QtyAtWithinTotal(fills: seq<Level>, px: real)
    requires PositiveQty(fills)
    ensures 0.0 <= QtyAt(fills, px) <= TotalQty(fills)
    ensures (forall k :: 0 <= k < |fills| ==> fills[k].px != px) ==> QtyAt(fills, px) == 0.0
  {
    if fills != [] {
      QtyAtWithinTotal(fills[1..], px);
    }
  }

  /** The displayed book crosses the order, so that a sweep must visit it. */
  predicate CrossedBy(best: Option<Level>, maker: Side, price: real) {
    best.Some? && maker.Reverse().Crosses(best.value.px, price)
  }

  lemma SweepOneEffect(s: Setup, maker: Side, x: Entry, w: Sweeping)
    requires x.id in w.orders && w.orders[x.id].IsLive() && Sound(w.orders[x.id]) && w.orders[x.id].price == x.price
    ensures var r := SweepOne(s, maker, x.id, w);
            var limit := MatchingLimit(s, maker, x.price);
            var taken := TakeLevels(w.levels, maker, limit, w.orders[x.id].open);
            && r.orders.Keys == w.orders.Keys && r.meta.Keys == w.meta.Keys
            && (forall id :: id in w.orders && id != x.id ==> r.orders[id] == w.orders[id])
            && (forall id :: id in w.meta ==> r.meta[id].arrival == w.meta[id].arrival)
            && Sound(r.orders[x.id]) && r.orders[x.id].open == w.orders[x.id].open - TotalQty(taken.fills)
            && (r.orders[x.id].open > 0.0 ==> r.orders[x.id].IsLive())
            && r.orders[x.id].price == x.price && r.orders[x.id].side == w.orders[x.id].side
            && r.levels == taken.rest && r.drawn == w.drawn + taken.fills
            && PositiveQty(taken.fills) && TotalQty(taken.fills) <= w.orders[x.id].open
            && (forall k :: 0 <= k < |taken.fills| ==> maker.Crosses(limit, taken.fills[k].px))
  {
    var o := w.orders[x.id];
    var limit := MatchingLimit(s, maker, x.price);
    WalkFitsDemand(w.levels, maker, limit, o.open);
    WalkTakesWithinReach(w.levels, maker, limit, o.open);
    FillEachMovesTotal(o, TakeLevels(w.levels, maker, limit, o.open).fills);
  }

  // ---------------------------------------------------------------- the early exit

  /** The simple form: visit every listed order and handle those that the displayed book crosses. */
  ghost function SweepEvery(s: Setup, best: Option<Level>, maker: Side, list: seq<Entry>, w: Sweeping): Sweeping
    decreases |list|
  {
    if list == [] then w
    else
      var id := list[0].id;
      if id !in w.orders || !CrossedBy(best, maker, w.orders[id].price) then SweepEvery(s, best, maker, list[1..], w)
      else SweepEvery(s, best, maker, list[1..], SweepOne(s, maker, id, w))
  }

  lemma CrossedIsMonotone(best: Option<Level>, maker: Side, list: seq<Entry>, orders: map<Id, Order>)
    requires list != [] && RestingList(list, maker, orders) && !CrossedBy(best, maker, list[0].price)
    ensures forall x :: x in list ==> !CrossedBy(best, maker, x.price)
  {
    forall x | x in list ensures !CrossedBy(best, maker, x.price) {
      var k :| 0 <= k < |list| && list[k] == x;
      assert k == 0 || Priority(maker)(list[0], list[k]);
    }
  }

  lemma {:induction false} NothingCrossed(s: Setup, best: Option<Level>, maker: Side, list: seq<Entry>, w: Sweeping)
    requires forall x :: x in list ==> x.id in w.orders ==> !CrossedBy(best, maker, w.orders[x.id].price)
    ensures SweepEvery(s, best, maker, list, w) == w
    decreases |list|
  {
    if list != [] {
      NothingCrossed(s, best, maker, list[1..], w);
    }
  }

  /** Leaving the loop at the first order that is not crossed skips no order that is. */
  lemma {:induction false} EarlyExitSkipsNothing(s: Setup, best: Option<Level>, maker: Side, list: seq<Entry>,
                                                 w: Sweeping)
    requires RestingList(list, maker, w.orders)
    ensures SweepLoop(s, best, maker, list, w) == SweepEvery(s, best, maker, list, w)
    decreases |list|
  {
    if list != [] {
      assert list[0] in list;
      if CrossedBy(best, maker, list[0].price) {
        var u := SweepOne(s, maker, list[0].id, w);
        SweepOneEffect(s, maker, list[0], w);
        RestingTail(list, maker, w.orders, list[0].id, u.orders[list[0].id]);
        assert w.orders[list[0].id := u.orders[list[0].id]] == u.orders;
        EarlyExitSkipsNothing(s, best, maker, list[1..], u);
      } else {
        CrossedIsMonotone(best, maker, list, w.orders);
        NothingCrossed(s, best, maker, list, w);
      }
    }
  }

  // ---------------------------------------------------------------- the whole sweep

  lemma SweepHeadThenTail(s: Setup, best: Option<Level>, maker: Side, list: seq<Entry>,
                          w: Sweeping) returns (u: Sweeping)
    requires list != [] && RestingList(list, maker, w.orders) && CrossedBy(best, maker, list[0].price)
    ensures list[0].id in w.orders && u == SweepOne(s, maker, list[0].id, w)
    ensures SweepLoop(s, best, maker, list, w) == SweepLoop(s, best, maker, list[1..], u)
    ensures RestingList(list[1..], maker, u.orders)
    ensures !Listed(list[1..], list[0].id)
  {
    assert list[0] in list;
    u := SweepOne(s, maker, list[0].id, w);
    SweepOneEffect(s, maker, list[0], w);
    RestingTail(list, maker, w.orders, list[0].id, u.orders[list[0].id]);
    assert w.orders[list[0].id := u.orders[list[0].id]] == u.orders;
  }

  ghost predicate SweepKept(list: seq<Entry>, w: Sweeping, r: Sweeping) {
    && r.orders.Keys == w.orders.Keys && r.meta.Keys == w.meta.Keys
    && (forall id :: id in w.orders && !Listed(list, id) ==> r.orders[id] == w.orders[id])
    && (forall id :: id in w.meta ==> r.meta[id].arrival == w.meta[id].arrival)
    && (forall x :: x in list && x.id in w.orders ==>
          && Sound(r.orders[x.id]) && 0.0 <= r.orders[x.id].open <= w.orders[x.id].open
          && r.orders[x.id].price == w.orders[x.id].price && r.orders[x.id].side == w.orders[x.id].side
          && (r.orders[x.id].open > 0.0 ==> r.orders[x.id].IsLive()))
  }

  lemma {:induction false} SweepKeeps(s: Setup, best: Option<Level>, maker: Side, list: seq<Entry>, w: Sweeping)
    requires RestingList(list, maker, w.orders)
    ensures SweepKept(list, w, SweepLoop(s, best, maker, list, w))
    decreases |list|
  {
    if list != [] && CrossedBy(best, maker, list[0].price) {
      var u := SweepHeadThenTail(s, best, maker, list, w);
      assert list[0] in list;
      SweepOneEffect(s, maker, list[0], w);
      TotalNonNegative(TakeLevels(w.levels, maker, MatchingLimit(s, maker, list[0].price), w.orders[list[0].id].open).fills);
      SweepKeeps(s, best, maker, list[1..], u);
      SweepKeptThroughHead(list, w, u, SweepLoop(s, best, maker, list, w));
    } else {
      assert list != [] ==> list[0] in list;
    }
  }

  lemma SweepKeptThroughHead(list: seq<Entry>, w: Sweeping, u: Sweeping, r: Sweeping)
    requires list != [] && list[0].id in w.orders && !Listed(list[1..], list[0].id)
    requires u.orders.Keys == w.orders.Keys && u.meta.Keys == w.meta.Keys
    requires forall id :: id in w.orders && id != list[0].id ==> u.orders[id] == w.orders[id]
    requires forall id :: id in w.meta ==> u.meta[id].arrival == w.meta[id].arrival
    requires var a, b := u.orders[list[0].id], w.orders[list[0].id];
             Sound(a) && a.open <= b.open && a.price == b.price && a.side == b.side && (a.open > 0.0 ==> a.IsLive())
    requires SweepKept(list[1..], u, r)
    ensures SweepKept(list, w, r)
  {
    assert list[0] in list;
    assert forall x :: x in list ==> x == list[0] || x in list[1..];
    forall id | !Listed(list, id) ensures !Listed(list[1..], id) && id != list[0].id {
      assert forall x :: x in list[1..] ==> x in list;
    }
  }

  /** Open quantity lost by the listed orders whose over-cross limit reaches a price. */
  ghost function ReachingDrop(s: Setup, maker: Side, px: real, list: seq<Entry>, before: map<Id, Order>,
                              after: map<Id, Order>): real
    requires forall x :: x in list ==> x.id in before && x.id in after
  {
    if list == [] then 0.0
    else (if maker.Crosses(MatchingLimit(s, maker, list[0].price), px)
          then before[list[0].id].open - after[list[0].id].open else 0.0)
         + ReachingDrop(s, maker, px, list[1..], before, after)
  }

  lemma {:induction false} SweepDropsAgree(s: Setup, maker: Side, px: real, list: seq<Entry>,
                                           b1: map<Id, Order>, b2: map<Id, Order>, after: map<Id, Order>)
    requires forall x :: x in list ==> x.id in b1 && x.id in b2 && x.id in after && b1[x.id] == b2[x.id]
    ensures OpenDrop(list, b1, after) == OpenDrop(list, b2, after)
    ensures ReachingDrop(s, maker, px, list, b1, after) == ReachingDrop(s, maker, px, list, b2, after)
  {
    if list != [] {
      SweepDropsAgree(s, maker, px, list[1..], b1, b2, after);
    }
  }

  lemma {:induction false} NoSweepDrop(s: Setup, maker: Side, px: real, list: seq<Entry>, o: map<Id, Order>)
    requires forall x :: x in list ==> x.id in o
    ensures OpenDrop(list, o, o) == 0.0 && ReachingDrop(s, maker, px, list, o, o) == 0.0
  {
    if list != [] {
      NoSweepDrop(s, maker, px, list[1..], o);
    }
  }

  /**
   The budget pays exactly for the fills: the liquidity drawn is the open quantity lost, and what is drawn at a
   price is lost by orders that over-cross that price by the threshold.
   */
  ghost predicate DrawsItsFills(s: Setup, maker: Side, px: real, list: seq<Entry>, w: Sweeping, r: Sweeping) {
    && (forall x :: x in list ==> x.id in w.orders && x.id in r.orders)
    && TotalQty(r.drawn) - TotalQty(w.drawn) == OpenDrop(list, w.orders, r.orders)
    && 0.0 <= QtyAt(r.drawn, px) - QtyAt(w.drawn, px) <= ReachingDrop(s, maker, px, list, w.orders, r.orders)
  }

  lemma HeadDrawsItsFills(s: Setup, maker: Side, px: real, x: Entry, w: Sweeping)
    requires x.id in w.orders && w.orders[x.id].IsLive() && Sound(w.orders[x.id]) && w.orders[x.id].price == x.price
    ensures var u := SweepOne(s, maker, x.id, w);
            var drop := w.orders[x.id].open - u.orders[x.id].open;
            && TotalQty(u.drawn) - TotalQty(w.drawn) == drop
            && 0.0 <= QtyAt(u.drawn, px) - QtyAt(w.drawn, px)
            && QtyAt(u.drawn, px) - QtyAt(w.drawn, px)
               <= (if maker.Crosses(MatchingLimit(s, maker, x.price), px) then drop else 0.0)
  {
    SweepOneEffect(s, maker, x, w);
    var fills := TakeLevels(w.levels, maker, MatchingLimit(s, maker, x.price), w.orders[x.id].open).fills;
    TotalAppends(w.drawn, fills);
    QtyAtAppends(w.drawn, fills, px);
    QtyAtWithinTotal(fills, px);
  }

  lemma SweepDropsSplit(s: Setup, maker: Side, px: real, list: seq<Entry>, w: map<Id, Order>, u: map<Id, Order>,
                        r: map<Id, Order>)
    requires list != [] && (forall x :: x in list ==> x.id in w && x.id in u && x.id in r)
    requires !Listed(list[1..], list[0].id)
    requires forall id :: id in w && id != list[0].id ==> id in u && u[id] == w[id]
    ensures forall x :: x in list[1..] ==> x.id in u && x.id in r
    ensures OpenDrop(list, w, r) == w[list[0].id].open - r[list[0].id].open + OpenDrop(list[1..], u, r)
    ensures ReachingDrop(s, maker, px, list, w, r)
            == (if maker.Crosses(MatchingLimit(s, maker, list[0].price), px)
                then w[list[0].id].open - r[list[0].id].open else 0.0)
               + ReachingDrop(s, maker, px, list[1..], u, r)
  {
    forall x | x in list[1..] ensures x.id != list[0].id && x in list {
      assert Listed(list[1..], x.id);
    }
    SweepDropsAgree(s, maker, px, list[1..], u, w, r);
  }

  lemma {:induction false} SweepDrawsItsFills(s: Setup, best: Option<Level>, maker: Side, px: real, list: seq<Entry>,
                                              w: Sweeping)
    requires RestingList(list, maker, w.orders)
    ensures DrawsItsFills(s, maker, px, list, w, SweepLoop(s, best, maker, list, w))
    decreases |list|
  {
    var r := SweepLoop(s, best, maker, list, w);
    SweepKeeps(s, best, maker, list, w);
    if list != [] && CrossedBy(best, maker, list[0].price) {
      var u := SweepHeadThenTail(s, best, maker, list, w);
      assert list[0] in list;
      HeadDrawsItsFills(s, maker, px, list[0], w);
      SweepDrawsItsFills(s, best, maker, px, list[1..], u);
      SweepKeeps(s, best, maker, list[1..], u);
      SweepOneEffect(s, maker, list[0], w);
      SweepDropsSplit(s, maker, px, list, w.orders, u.orders, r.orders);
    } else {
      assert list != [] ==> list[0] in list;
      NoSweepDrop(s, maker, px, list, w.orders);
    }
  }

  // ---------------------------------------------------------------- no fill is missed

  /** Nothing left in the budget over-crosses an order at this price. */
  ghost predicate NothingToTake(s: Setup, maker: Side, price: real, levels: seq<Level>) {
    forall l :: l in levels ==> !maker.Crosses(MatchingLimit(s, maker, price), l.px)
  }

  /** Every level of `b` keeps the price of some level of `a`. */
  ghost predicate PricesWithin(b: seq<Level>, a: seq<Level>) {
    forall l :: l in b ==> exists k :: 0 <= k < |a| && a[k].px == l.px
  }

  lemma TakeKeepsPrices(levels: seq<Level>, taker: Side, limitPx: real, qty: real)
    ensures PricesWithin(TakeLevels(levels, taker, limitPx, qty).rest, levels)
  {
    WalkTakesWithinReach(levels, taker, limitPx, qty);
    WalkTakesBestFirst(levels, taker, limitPx, qty);
    var rest := Walk(levels, taker, limitPx, qty).rest;
    forall l | l in Retain(rest) ensures exists k :: 0 <= k < |levels| && levels[k].px == l.px {
      assert l in rest;
      var k :| 0 <= k < |rest| && rest[k] == l;
      assert levels[k].px == l.px;
    }
  }

  lemma {:induction false} SweepOnlyRemoves(s: Setup, best: Option<Level>, maker: Side, list: seq<Entry>, w: Sweeping)
    ensures PricesWithin(SweepLoop(s, best, maker, list, w).levels, w.levels)
    decreases |list|
  {
    if list != [] {
      var id := list[0].id;
      if id !in w.orders {
        SweepOnlyRemoves(s, best, maker, list[1..], w);
      } else if CrossedBy(best, maker, w.orders[id].price) {
        var u := SweepOne(s, maker, id, w);
        TakeKeepsPrices(w.levels, maker, MatchingLimit(s, maker, w.orders[id].price), w.orders[id].open);
        SweepOnlyRemoves(s, best, maker, list[1..], u);
        PricesCompose(SweepLoop(s, best, maker, list, w).levels, u.levels, w.levels);
      }
    }
  }

  lemma PricesCompose(c: seq<Level>, b: seq<Level>, a: seq<Level>)
    requires PricesWithin(c, b) && PricesWithin(b, a)
    ensures PricesWithin(c, a)
  {
    forall l | l in c ensures exists k :: 0 <= k < |a| && a[k].px == l.px {
      var k :| 0 <= k < |b| && b[k].px == l.px;
      assert b[k] in b;
    }
  }

  lemma NothingLeftStays(s: Setup, maker: Side, price: real, a: seq<Level>, b: seq<Level>)
    requires NothingToTake(s, maker, price, a) && PricesWithin(b, a)
    ensures NothingToTake(s, maker, price, b)
  {
    forall l | l in b ensures !maker.Crosses(MatchingLimit(s, maker, price), l.px) {
      var k :| 0 <= k < |a| && a[k].px == l.px;
      assert a[k] in a;
    }
  }

  /** After a sweep, no crossed order that still wants quantity faces a budget level that it over-crosses. */
  lemma {:induction false} SweepMissesNoFill(s: Setup, best: Option<Level>, maker: Side, list: seq<Entry>, w: Sweeping)
    requires RestingList(list, maker, w.orders) && WellFormed(w.levels, maker.Reverse())
    ensures var r := SweepLoop(s, best, maker, list, w);
            forall x :: x in list && CrossedBy(best, maker, x.price) ==>
              x.id in r.orders && (r.orders[x.id].open > 0.0 ==> NothingToTake(s, maker, x.price, r.levels))
    decreases |list|
  {
    var r := SweepLoop(s, best, maker, list, w);
    if list != [] {
      assert list[0] in list;
      if CrossedBy(best, maker, list[0].price) {
        var u := SweepHeadThenTail(s, best, maker, list, w);
        SweepOneEffect(s, maker, list[0], w);
        var limit, open := MatchingLimit(s, maker, list[0].price), w.orders[list[0].id].open;
        TakeKeepsWellFormed(w.levels, maker, limit, open);
        SweepMissesNoFill(s, best, maker, list[1..], u);
        SweepKeeps(s, best, maker, list[1..], u);
        SweepOnlyRemoves(s, best, maker, list[1..], u);
        if u.orders[list[0].id].open > 0.0 {
          UnmetDemandExhausts(w.levels, maker, limit, open);
          NothingLeftStays(s, maker, list[0].price, u.levels, r.levels);
        }
        assert forall x :: x in list ==> x == list[0] || x in list[1..];
      } else {
        CrossedIsMonotone(best, maker, list, w.orders);
      }
    }
  }

  /** An order that the displayed best does not cross faces no budget level that it over-crosses. */
  lemma UncrossedFacesNothing(s: Setup, shown: seq<Level>, levels: seq<Level>, maker: Side, price: real)
    requires ValidSetup(s) && price > 0.0
    requires Sorted(shown, maker.Reverse()) && PricesWithin(levels, shown)
    requires shown != [] ==> !maker.Reverse().Crosses(shown[0].px, price)
    ensures NothingToTake(s, maker, price, levels)
  {
    assert maker.Buy? ==> MatchingLimit(s, maker, price) <= price;
    assert maker.Sell? ==> MatchingLimit(s, maker, price) >= price;
    forall l | l in levels ensures !maker.Crosses(MatchingLimit(s, maker, price), l.px) {
      var k :| 0 <= k < |shown| && shown[k].px == l.px;
      assert k == 0 || BestFirst(maker.Reverse())(shown[0], shown[k]);
    }
  }
}
