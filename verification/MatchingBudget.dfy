/** The simulated liquidity budget over whole runs: never more than the displayed book justifies. */
module MatchingBudget {
  import opened Common
  import opened Book
  import opened Matching
  import opened MatchingDepth
  import opened MatchingRuns

  // ---------------------------------------------------------------- the budget lies within the display

  /** `m` is a subsequence of `d` at exactly the same prices, each quantity at most the fraction of the displayed one. */
  ghost predicate Within(m: seq<Level>, d: seq<Level>, fraction: real)
    decreases |d|
  {
    || m == []
    || (d != [] && m[0].px == d[0].px && m[0].qty <= fraction * d[0].qty && Within(m[1..], d[1..], fraction))
    || (d != [] && Within(m, d[1..], fraction))
  }

  /** The budget of an engine lies within what it displays, on both sides. */
  ghost predicate Budgeted(s: Setup, e: Engine) {
    forall side: Side :: Within(LevelsOf(e.depth, side), LevelsOf(e.book, side), s.depthFraction)
  }

  lemma WithinSkip(m: seq<Level>, d: seq<Level>, fraction: real)
    requires d != [] && Within(m, d[1..], fraction)
    ensures Within(m, d, fraction)
  {
  }

  /** Lowering quantities in place stays within the display. */
  lemma {:induction false} WithinLowered(a: seq<Level>, b: seq<Level>, d: seq<Level>, fraction: real)
    requires Within(a, d, fraction) && |b| == |a|
    requires forall k :: 0 <= k < |a| ==> b[k].px == a[k].px && b[k].qty <= a[k].qty
    ensures Within(b, d, fraction)
    decreases |d|
  {
    if a != [] {
      if a[0].px == d[0].px && a[0].qty <= fraction * d[0].qty && Within(a[1..], d[1..], fraction) {
        WithinLowered(a[1..], b[1..], d[1..], fraction);
      } else {
        WithinLowered(a, b, d[1..], fraction);
      }
    }
  }

  lemma {:induction false} WithinRetained(m: seq<Level>, d: seq<Level>, fraction: real)
    requires Within(m, d, fraction)
    ensures Within(Retain(m), d, fraction)
    decreases |m|, |d|
  {
    if m != [] {
      if m[0].px == d[0].px && m[0].qty <= fraction * d[0].qty && Within(m[1..], d[1..], fraction) {
        WithinRetained(m[1..], d[1..], fraction);
        if m[0].qty > 0.0 {
          assert Retain(m)[1..] == Retain(m[1..]);
        } else {
          WithinSkip(Retain(m[1..]), d, fraction);
        }
      } else {
        WithinRetained(m, d[1..], fraction);
        WithinSkip(Retain(m), d, fraction);
      }
    }
  }

  lemma TakeStaysWithin(m: seq<Level>, d: seq<Level>, fraction: real, taker: Side, limitPx: real, qty: real)
    requires Within(m, d, fraction)
    ensures Within(TakeLevels(m, taker, limitPx, qty).rest, d, fraction)
  {
    var rest := Walk(m, taker, limitPx, qty).rest;
    WalkTakesWithinReach(m, taker, limitPx, qty);
    WalkTakesBestFirst(m, taker, limitPx, qty);
    WithinLowered(m, rest, d, fraction);
    WithinRetained(rest, d, fraction);
  }

  lemma {:induction false} SweepStaysWithin(s: Setup, best: Option<Level>, maker: Side, list: seq<Entry>, w: Sweeping,
                                            d: seq<Level>, fraction: real)
    requires Within(w.levels, d, fraction)
    ensures Within(SweepLoop(s, best, maker, list, w).levels, d, fraction)
    decreases |list|
  {
    if list != [] {
      var id := list[0].id;
      if id !in w.orders {
        SweepStaysWithin(s, best, maker, list[1..], w, d, fraction);
      } else if CrossedBy(best, maker, w.orders[id].price) {
        hide MatchingLimit;
        TakeStaysWithin(w.levels, d, fraction, maker, MatchingLimit(s, maker, w.orders[id].price), w.orders[id].open);
        SweepStaysWithin(s, best, maker, list[1..], SweepOne(s, maker, id, w), d, fraction);
      }
    }
  }

  lemma {:induction false} CapacityStaysWithin(current: seq<Level>, previous: seq<Level>, remaining: seq<Level>,
                                               fraction: real, threshold: real)
    ensures Within(CapacityLevels(current, previous, remaining, fraction, threshold), current, fraction)
  {
    if current != [] {
      CapacityStaysWithin(current[1..], previous, remaining, fraction, threshold);
      var capacity := Capacity(current[0], previous, remaining, fraction, threshold);
      var rest := CapacityLevels(current[1..], previous, remaining, fraction, threshold);
      assert capacity <= fraction * current[0].qty;
      if capacity > 0.0 {
        assert ([Level(current[0].px, capacity)] + rest)[1..] == rest;
      } else {
        assert [] + rest == rest;
      }
    }
  }

  lemma {:induction false} WholeStaysWithin(d: seq<Level>)
    ensures Within(d, d, 1.0)
  {
    if d != [] {
      WholeStaysWithin(d[1..]);
    }
  }

  lemma ShownIsBudgeted(s: Setup, e: Engine, shown: OrderBook)
    ensures Budgeted(s, Shown(s, e, shown))
  {
    var r := Shown(s, e, shown);
    forall side: Side ensures Within(LevelsOf(r.depth, side), LevelsOf(r.book, side), s.depthFraction) {
      if s.depthFraction == 1.0 {
        WholeStaysWithin(shown.Levels(side));
      } else {
        CapacityStaysWithin(shown.Levels(side), LevelsOf(e.book, side), LevelsOf(e.depth, side), s.depthFraction,
                            s.PxThreshold());
      }
    }
  }

  lemma SweepSideStaysBudgeted(s: Setup, e: Engine, maker: Side)
    requires Budgeted(s, e)
    ensures Budgeted(s, SweepSide(s, e, maker).engine)
  {
    var r := SweepSide(s, e, maker).engine;
    var market := maker.Reverse();
    SweepStaysWithin(s, BestOf(e.book, market), maker, PriorityList(e, maker),
                     Sweeping(e.orders, e.meta, LevelsOf(e.depth, market), [], []), LevelsOf(e.book, market),
                     s.depthFraction);
    forall side: Side ensures Within(LevelsOf(r.depth, side), LevelsOf(r.book, side), s.depthFraction) {
      assert side == market || side == maker;
      assert e.depth.None? ==> LevelsOf(r.depth, side) == [];
      assert Within(LevelsOf(e.depth, side), LevelsOf(e.book, side), s.depthFraction);
    }
  }

  lemma MatchTakerStaysBudgeted(s: Setup, e: Engine, id: Id)
    requires Budgeted(s, e) && id in e.orders
    ensures Budgeted(s, MatchTaker(e, id).engine)
  {
    var r, o := MatchTaker(e, id).engine, e.orders[id];
    var market := o.side.Reverse();
    TakeStaysWithin(LevelsOf(e.depth, market), LevelsOf(e.book, market), s.depthFraction, o.side, o.price, o.open);
    forall side: Side ensures Within(LevelsOf(r.depth, side), LevelsOf(r.book, side), s.depthFraction) {
      assert side == market || side == o.side;
      assert Within(LevelsOf(e.depth, side), LevelsOf(e.book, side), s.depthFraction);
    }
  }

  /** Entering an order touches the books only by matching it as a taker. */
  lemma EnterBooks(e: Engine, id: Id, rank: Meta)
    requires id in e.orders
    ensures var r, m := Enter(e, id, rank), MatchTaker(e, id);
            && r.engine.book == e.book == m.engine.book
            && ((r.engine.depth == e.depth && r.drawn == NothingDrawn)
                || (r.engine.depth == m.engine.depth && r.drawn == m.drawn))
  {
    hide TakeLevels, FillEach, CrossesDepth;
  }

  /** The same for activating one. */
  lemma ActivateBooks(s: Setup, e: Engine, id: Id)
    ensures var r := Activate(s, e, id);
            && r.engine.book == e.book
            && ((r.engine.depth == e.depth && r.drawn == NothingDrawn)
                || (id in e.orders && r.engine.depth == MatchTaker(e, id).engine.depth
                    && r.drawn == MatchTaker(e, id).drawn))
  {
    hide AssumedQueue, Enter, TakeLevels, FillEach;
    if id in e.orders && e.orders[id].status == PendingNew {
      EnterBooks(e.(nextSeq := e.nextSeq + 1), id, Meta(e.nextSeq, AssumedQueue(s, e, e.orders[id])));
    }
  }

  lemma BudgetedByBooks(s: Setup, e: Engine, r: Engine)
    requires Budgeted(s, e) && r.book == e.book && r.depth == e.depth
    ensures Budgeted(s, r)
  {
  }

  lemma StepStaysBudgeted(s: Setup, e: Engine, event: Event)
    requires Budgeted(s, e)
    ensures Budgeted(s, StepEvent(s, e, event).engine)
  {
    hide Budgeted, MatchTaker, Activate, AfterTrade;
    var r := StepEvent(s, e, event).engine;
    match event
    case Activated(id) =>
      ActivateBooks(s, e, id);
      if r.depth == e.depth {
        BudgetedByBooks(s, e, r);
      } else {
        MatchTakerStaysBudgeted(s, e, id);
        MatchTakerBook(e, id);
        BudgetedByBooks(s, MatchTaker(e, id).engine, r);
      }
    case DepthShown(shown) =>
      ShownIsBudgeted(s, e, shown);
      SweepSideStaysBudgeted(s, Shown(s, e, shown), Sell);
      SweepSideStaysBudgeted(s, SweepSide(s, Shown(s, e, shown), Sell).engine, Buy);
      BudgetedByBooks(s, SweepSide(s, SweepSide(s, Shown(s, e, shown), Sell).engine, Buy).engine, r);
    case TradeSeen(px, qty, taker) =>
      TradeBooks(s, e, px, qty, taker);
      BudgetedByBooks(s, e, r);
    case _ =>
      BudgetedByBooks(s, e, r);
  }

  lemma MatchTakerBook(e: Engine, id: Id)
    requires id in e.orders
    ensures MatchTaker(e, id).engine.book == e.book
  {
  }

  lemma TradeBooks(s: Setup, e: Engine, px: real, qty: real, taker: Side)
    ensures OnTrade(s, e, px, qty, taker).book == e.book && OnTrade(s, e, px, qty, taker).depth == e.depth
  {
    hide Traded, RemoveTerminal, Eligible;
  }

  /** In every reachable state the budget is an exact-price subsequence of the display, within the fraction. */
  lemma {:induction false} RunStaysBudgeted(s: Setup, events: seq<Event>)
    ensures Budgeted(s, RunEngine(s, events))
  {
    if events != [] {
      RunStaysBudgeted(s, events[..|events| - 1]);
      StepStaysBudgeted(s, RunEngine(s, events[..|events| - 1]), events[|events| - 1]);
    }
  }

  // ---------------------------------------------------------------- what each step draws

  ghost predicate PositiveBudget(e: Engine) {
    forall side: Side :: PositiveQty(LevelsOf(e.depth, side))
  }

  /** The step drew, at this price, exactly what the budget lost there. */
  ghost predicate Accounts(e: Engine, r: Stepped, side: Side, px: real) {
    QtyAt(LevelsOf(e.depth, side), px) == QtyAt(LevelsOf(r.engine.depth, side), px) + QtyAt(r.drawn.Levels(side), px)
  }

  lemma {:induction false} SweepAccounts(s: Setup, best: Option<Level>, maker: Side, list: seq<Entry>, w: Sweeping,
                                         px: real)
    requires PositiveQty(w.levels)
    ensures var r := SweepLoop(s, best, maker, list, w);
            && PositiveQty(r.levels)
            && QtyAt(r.levels, px) + QtyAt(r.drawn, px) == QtyAt(w.levels, px) + QtyAt(w.drawn, px)
    decreases |list|
  {
    if list != [] {
      var id := list[0].id;
      if id !in w.orders {
        SweepAccounts(s, best, maker, list[1..], w, px);
      } else if CrossedBy(best, maker, w.orders[id].price) {
        hide MatchingLimit;
        var limit, open := MatchingLimit(s, maker, w.orders[id].price), w.orders[id].open;
        TakeConservesEachPrice(w.levels, maker, limit, open, px);
        QtyAtAppends(w.drawn, TakeLevels(w.levels, maker, limit, open).fills, px);
        SweepAccounts(s, best, maker, list[1..], SweepOne(s, maker, id, w), px);
      }
    }
  }

  lemma SweepSideAccounts(s: Setup, e: Engine, maker: Side, side: Side, px: real)
    requires PositiveBudget(e)
    ensures PositiveBudget(SweepSide(s, e, maker).engine)
    ensures Accounts(e, SweepSide(s, e, maker), side, px)
    ensures SweepSide(s, e, maker).engine.book == e.book
  {
    hide SweepLoop, PriorityList, BestOf;
    var market := maker.Reverse();
    var w := Sweeping(e.orders, e.meta, LevelsOf(e.depth, market), [], []);
    assert PositiveQty(LevelsOf(e.depth, market)) && PositiveQty(LevelsOf(e.depth, maker));
    SweepAccounts(s, BestOf(e.book, market), maker, PriorityList(e, maker), w, px);
    if e.depth.None? {
      EmptyBudgetDraws(s, BestOf(e.book, market), maker, PriorityList(e, maker), w);
    }
  }

  lemma {:induction false} EmptyBudgetDraws(s: Setup, best: Option<Level>, maker: Side, list: seq<Entry>, w: Sweeping)
    requires w.levels == []
    ensures var r := SweepLoop(s, best, maker, list, w); r.levels == [] && r.drawn == w.drawn
    decreases |list|
  {
    if list != [] {
      var id := list[0].id;
      if id !in w.orders {
        EmptyBudgetDraws(s, best, maker, list[1..], w);
      } else if CrossedBy(best, maker, w.orders[id].price) {
        EmptyBudgetDraws(s, best, maker, list[1..], SweepOne(s, maker, id, w));
      }
    }
  }

  lemma MatchTakerAccounts(e: Engine, id: Id, side: Side, px: real)
    requires PositiveBudget(e) && id in e.orders
    ensures PositiveBudget(MatchTaker(e, id).engine)
    ensures Accounts(e, MatchTaker(e, id), side, px)
  {
    var o := e.orders[id];
    var market := o.side.Reverse();
    assert PositiveQty(LevelsOf(e.depth, market)) && PositiveQty(LevelsOf(e.depth, o.side));
    TakeConservesEachPrice(LevelsOf(e.depth, market), o.side, o.price, o.open, px);
  }

  lemma StepAccounts(s: Setup, e: Engine, event: Event, side: Side, px: real)
    requires PositiveBudget(e) && !event.DepthShown?
    ensures var r := StepEvent(s, e, event);
            PositiveBudget(r.engine) && Accounts(e, r, side, px) && r.engine.book == e.book
  {
    hide MatchTaker, Activate, AfterTrade;
    match event
    case Activated(id) =>
      ActivateBooks(s, e, id);
      if id in e.orders {
        MatchTakerAccounts(e, id, side, px);
      }
    case TradeSeen(tradePx, qty, taker) => TradeBooks(s, e, tradePx, qty, taker);
    case _ =>
  }

  // ---------------------------------------------------------------- what a snapshot adds

  /** Distinct prices of the grid are further apart than the comparison tolerance. */
  ghost predicate Separated(grid: iset<real>, threshold: real) {
    forall a, b :: a in grid && b in grid && a != b ==> !ApproxEq(a, b, threshold)
  }

  ghost predicate OnGrid(levels: seq<Level>, grid: iset<real>) {
    forall l :: l in levels ==> l.px in grid
  }

  function Multiple(k: int, tick: real): real {
    k as real * tick
  }

  ghost function TickGrid(tick: real): iset<real> {
    iset k: int | true :: Multiple(k, tick)
  }

  /** Multiples of the tick are separated by the tolerance of a tenth of a tick. */
  lemma TickGridIsSeparated(tick: real)
    requires tick > 0.0
    ensures Separated(TickGrid(tick), tick * 0.1)
  {
    forall a, b | a in TickGrid(tick) && b in TickGrid(tick) && a != b ensures !ApproxEq(a, b, tick * 0.1) {
      var i: int :| a == Multiple(i, tick);
      var j: int :| b == Multiple(j, tick);
      TicksApart(i, j, tick);
    }
  }

  lemma LaterTick(i: int, j: int, tick: real)
    requires tick > 0.0 && i > j
    ensures Multiple(i, tick) - Multiple(j, tick) >= tick
  {
    assert Multiple(i, tick) - Multiple(j, tick) == (i - j) as real * tick;
    assert (i - j) as real >= 1.0;
  }

  lemma TicksApart(i: int, j: int, tick: real)
    requires tick > 0.0 && Multiple(i, tick) != Multiple(j, tick)
    ensures !ApproxEq(Multiple(i, tick), Multiple(j, tick), tick * 0.1)
  {
    if i > j {
      LaterTick(i, j, tick);
    } else if i < j {
      LaterTick(j, i, tick);
    }
  }

  lemma {:induction false} AbsentMeansZero(levels: seq<Level>, px: real)
    requires forall l :: l in levels ==> l.px != px
    ensures QtyAt(levels, px) == 0.0
  {
    if levels != [] {
      assert levels[0] in levels;
      AbsentMeansZero(levels[1..], px);
    }
  }

  function QtyOr0(q: Option<real>): real {
    if q.None? then 0.0 else q.value
  }

  /** On a separated grid the tolerant search finds exactly the quantity at the price. */
  lemma {:induction false} FindsExactPrice(levels: seq<Level>, px: real, threshold: real, grid: iset<real>)
    requires Separated(grid, threshold) && threshold >= 0.0 && OnGrid(levels, grid) && px in grid
             && UniquePrices(levels)
    ensures QtyAt(levels, px) == QtyOr0(FoundQty(levels, px, threshold))
  {
    if levels != [] {
      assert levels[0] in levels;
      if levels[0].px == px {
        AbsentMeansZero(levels[1..], px);
      } else {
        assert !ApproxEq(levels[0].px, px, threshold);
        FindsExactPrice(levels[1..], px, threshold, grid);
      }
    }
  }

  function PositivePart(x: real): real {
    if x > 0.0 then x else 0.0
  }

  /** The fraction of an increase. */
  function GrowthShare(x: real, fraction: real): real {
    PositivePart(x) * fraction
  }

  lemma {:induction false} CapacityAt(current: seq<Level>, previous: seq<Level>, remaining: seq<Level>, fraction: real,
                                      threshold: real, px: real)
    requires UniquePrices(current)
    ensures var fresh_ := CapacityLevels(current, previous, remaining, fraction, threshold);
            && PositiveQty(fresh_)
            && (forall l :: l in fresh_ ==> exists k :: 0 <= k < |current| && current[k].px == l.px)
            && ((forall l :: l in current ==> l.px != px) ==> QtyAt(fresh_, px) == 0.0)
            && (forall l :: l in current && l.px == px ==>
                  QtyAt(fresh_, px) == PositivePart(Capacity(l, previous, remaining, fraction, threshold)))
  {
    hide Capacity;
    if current != [] {
      CapacityAt(current[1..], previous, remaining, fraction, threshold, px);
      var fresh_ := CapacityLevels(current, previous, remaining, fraction, threshold);
      var rest := CapacityLevels(current[1..], previous, remaining, fraction, threshold);
      var capacity := Capacity(current[0], previous, remaining, fraction, threshold);
      assert current[0] in current;
      if capacity > 0.0 {
        assert fresh_ == [Level(current[0].px, capacity)] + rest && fresh_[1..] == rest;
      } else {
        assert fresh_ == rest;
      }
      forall l | l in fresh_ ensures exists k :: 0 <= k < |current| && current[k].px == l.px {
        if l in rest {
          var k :| 0 <= k < |current[1..]| && current[1..][k].px == l.px;
          assert current[k + 1].px == l.px;
        } else {
          assert current[0].px == l.px;
        }
      }
      if current[0].px == px {
        forall l | l in current[1..] ensures l.px != px {
          var k :| 0 <= k < |current[1..]| && current[1..][k] == l;
          assert current[k + 1] == l;
        }
      }
    }
  }

  /** A snapshot adds at a price at most the fraction of the displayed increase there. */
  lemma CapacityGrowth(current: seq<Level>, previous: seq<Level>, remaining: seq<Level>, fraction: real,
                       threshold: real,
                       grid: iset<real>, px: real)
    requires Separated(grid, threshold) && threshold >= 0.0 && fraction >= 0.0 && px in grid
    requires OnGrid(current, grid) && OnGrid(previous, grid) && OnGrid(remaining, grid)
    requires UniquePrices(current) && UniquePrices(previous) && UniquePrices(remaining) && PositiveQty(remaining)
    ensures QtyAt(CapacityLevels(current, previous, remaining, fraction, threshold), px)
            <= QtyAt(remaining, px) + GrowthShare(QtyAt(current, px) - QtyAt(previous, px), fraction)
  {
    hide CapacityOf, CapacityLevels, PositivePart, GrowthShare, FoundQty, QtyAt, Separated, OnGrid, UniquePrices;
    CapacityAt(current, previous, remaining, fraction, threshold, px);
    QtyAtWithinTotal(remaining, px);
    GrowthNonNegative(QtyAt(current, px) - QtyAt(previous, px), fraction);
    if exists l :: l in current && l.px == px {
      var l :| l in current && l.px == px;
      FindsExactPrice(previous, px, threshold, grid);
      FindsExactPrice(remaining, px, threshold, grid);
      QtyOfUnique(current, l);
      CapacityBound(l.qty, FoundQty(previous, px, threshold), QtyAt(remaining, px), fraction);
    } else {
      AbsentMeansZero(current, px);
    }
  }

  /** The budget of a price from its displayed quantity now and before, and what was left: no less than that, and no more. */
  function BudgetAt(shown: real, before: real, left: real, fraction: real): real {
    MinReal(left + GrowthShare(shown - before, fraction), shown * fraction)
  }

  /** After a snapshot each price holds what was left plus its share of the increase, up to its share of the display. */
  lemma CapacityExact(current: seq<Level>, previous: seq<Level>, remaining: seq<Level>, fraction: real, threshold: real,
                      grid: iset<real>, px: real)
    requires Separated(grid, threshold) && threshold >= 0.0 && fraction >= 0.0 && px in grid
    requires OnGrid(current, grid) && OnGrid(previous, grid) && OnGrid(remaining, grid)
    requires UniquePrices(current) && UniquePrices(previous) && UniquePrices(remaining)
    requires PositiveQty(current) && PositiveQty(previous) && PositiveQty(remaining)
    requires (forall l :: l in previous ==> l.px != px) ==> QtyAt(remaining, px) == 0.0
    ensures QtyAt(CapacityLevels(current, previous, remaining, fraction, threshold), px)
            == BudgetAt(QtyAt(current, px), QtyAt(previous, px), QtyAt(remaining, px), fraction)
  {
    hide CapacityOf, CapacityLevels, PositivePart, GrowthShare, BudgetAt, FoundQty, QtyAt, Separated, OnGrid,
         UniquePrices;
    CapacityAt(current, previous, remaining, fraction, threshold, px);
    QtyAtWithinTotal(remaining, px);
    if exists l :: l in current && l.px == px {
      var l :| l in current && l.px == px;
      FindsExactPrice(previous, px, threshold, grid);
      FindsExactPrice(remaining, px, threshold, grid);
      QtyOfUnique(current, l);
      MissingIsAbsent(previous, px, threshold);
      CapacityIs(l.qty, FoundQty(previous, px, threshold), QtyAt(remaining, px), fraction);
    } else {
      AbsentMeansZero(current, px);
      QtyAtWithinTotal(previous, px);
      CapacityGone(QtyAt(previous, px), QtyAt(remaining, px), fraction);
    }
  }

  lemma {:induction false} MissingIsAbsent(levels: seq<Level>, px: real, threshold: real)
    requires threshold >= 0.0
    ensures FoundQty(levels, px, threshold).None? ==> forall l :: l in levels ==> l.px != px
  {
    if levels != [] && !ApproxEq(levels[0].px, px, threshold) {
      MissingIsAbsent(levels[1..], px, threshold);
    }
  }

  lemma CapacityIs(qty: real, before: Option<real>, left: real, fraction: real)
    requires fraction >= 0.0 && left >= 0.0 && qty > 0.0 && (before.None? ==> left == 0.0)
    ensures PositivePart(CapacityOf(qty, before, left, fraction)) == BudgetAt(qty, QtyOr0(before), left, fraction)
  {
    ProductSign(qty, fraction);
    ProductSign(PositivePart(qty - QtyOr0(before)), fraction);
  }

  lemma CapacityGone(before: real, left: real, fraction: real)
    requires fraction >= 0.0 && left >= 0.0 && before >= 0.0
    ensures BudgetAt(0.0, before, left, fraction) == 0.0
  {
    ProductSign(PositivePart(0.0 - before), fraction);
  }

  lemma {:induction false} QtyOfUnique(levels: seq<Level>, l: Level)
    requires UniquePrices(levels) && l in levels
    ensures QtyAt(levels, l.px) == l.qty
  {
    if levels[0] == l {
      forall k | k in levels[1..] ensures k.px != l.px {
        var i :| 0 <= i < |levels[1..]| && levels[1..][i] == k;
        assert levels[i + 1] == k;
      }
      AbsentMeansZero(levels[1..], l.px);
    } else {
      var i :| 0 < i < |levels| && levels[i] == l;
      assert levels[1..][i - 1] == l;
      QtyOfUnique(levels[1..], l);
    }
  }

  lemma GrowthNonNegative(x: real, fraction: real)
    requires fraction >= 0.0
    ensures GrowthShare(x, fraction) >= 0.0
  {
    ProductSign(PositivePart(x), fraction);
  }

  lemma ProductSign(a: real, b: real)
    requires b >= 0.0
    ensures a >= 0.0 ==> a * b >= 0.0
    ensures a <= 0.0 ==> a * b <= 0.0
  {
  }

  lemma CapacityBound(qty: real, before: Option<real>, left: real, fraction: real)
    requires fraction >= 0.0 && left >= 0.0
    ensures PositivePart(CapacityOf(qty, before, left, fraction))
            <= left + GrowthShare(qty - QtyOr0(before), fraction)
  {
    ProductSign(qty, fraction);
    ProductSign(PositivePart(qty - QtyOr0(before)), fraction);
  }

  // ---------------------------------------------------------------- whole runs

  /** The most recent snapshot of a run. */
  ghost function LastShown(events: seq<Event>): Option<OrderBook> {
    if events == [] then None
    else if events[|events| - 1].DepthShown? then Some(events[|events| - 1].shown)
    else LastShown(events[..|events| - 1])
  }

  /** Total of the positive increases in displayed quantity at a price; an absent level counts as zero. */
  ghost function Grown(events: seq<Event>, side: Side, px: real): real {
    if events == [] then 0.0
    else
      var before := events[..|events| - 1];
      var last := events[|events| - 1];
      Grown(before, side, px)
      + if last.DepthShown? then
          PositivePart(QtyAt(last.shown.Levels(side), px) - QtyAt(LevelsOf(LastShown(before), side), px))
        else 0.0
  }

  /** Total simulated liquidity drawn at a price over a run. */
  ghost function Spent(s: Setup, events: seq<Event>, side: Side, px: real): real {
    if events == [] then 0.0
    else
      var before := events[..|events| - 1];
      Spent(s, before, side, px)
      + QtyAt(StepEvent(s, RunEngine(s, before), events[|events| - 1]).drawn.Levels(side), px)
  }

  /** Every snapshot lists each price once, and all prices of all snapshots lie on the grid. */
  ghost predicate GridRun(events: seq<Event>, grid: iset<real>) {
    forall i, side: Side :: 0 <= i < |events| && events[i].DepthShown? ==>
                       OnGrid(events[i].shown.Levels(side), grid) && UniquePrices(events[i].shown.Levels(side))
  }

  ghost predicate GridBook(b: Option<OrderBook>, grid: iset<real>) {
    forall side: Side :: OnGrid(LevelsOf(b, side), grid) && UniquePrices(LevelsOf(b, side))
  }

  lemma {:induction false} LastShownOnGrid(events: seq<Event>, grid: iset<real>)
    requires GridRun(events, grid)
    ensures GridBook(LastShown(events), grid)
  {
    if events != [] {
      var n := |events| - 1;
      if events[n].DepthShown? {
        forall side: Side ensures OnGrid(events[n].shown.Levels(side), grid) && UniquePrices(events[n].shown.Levels(side)) {
        }
      } else {
        PrefixOnGrid(events, grid);
        LastShownOnGrid(events[..n], grid);
      }
    }
  }

  lemma PrefixOnGrid(events: seq<Event>, grid: iset<real>)
    requires events != [] && GridRun(events, grid)
    ensures GridRun(events[..|events| - 1], grid)
  {
    var before := events[..|events| - 1];
    forall i, side: Side | 0 <= i < |before| && before[i].DepthShown?
      ensures OnGrid(before[i].shown.Levels(side), grid) && UniquePrices(before[i].shown.Levels(side))
    {
      assert before[i] == events[i];
    }
  }

  lemma {:induction false} WithinPrices(m: seq<Level>, d: seq<Level>, fraction: real)
    requires Within(m, d, fraction)
    ensures PricesWithin(m, d)
    decreases |d|
  {
    if m != [] {
      if m[0].px == d[0].px && m[0].qty <= fraction * d[0].qty && Within(m[1..], d[1..], fraction) {
        WithinPrices(m[1..], d[1..], fraction);
      } else {
        WithinPrices(m, d[1..], fraction);
      }
      forall l | l in m ensures exists k :: 0 <= k < |d| && d[k].px == l.px {
        if l == m[0] && m[0].px == d[0].px {
        } else {
          var i :| 0 <= i < |d[1..]| && d[1..][i].px == l.px;
          assert d[i + 1].px == l.px;
        }
      }
    }
  }

  lemma {:induction false} WithinUnique(m: seq<Level>, d: seq<Level>, fraction: real)
    requires Within(m, d, fraction) && UniquePrices(d)
    ensures UniquePrices(m)
    decreases |d|
  {
    if m != [] {
      assert UniquePrices(d[1..]);
      if m[0].px == d[0].px && m[0].qty <= fraction * d[0].qty && Within(m[1..], d[1..], fraction) {
        WithinUnique(m[1..], d[1..], fraction);
        WithinPrices(m[1..], d[1..], fraction);
        forall k | 0 < k < |m| ensures m[k].px != m[0].px {
          assert m[1..][k - 1] == m[k] && m[k] in m[1..];
          var i :| 0 <= i < |d[1..]| && d[1..][i].px == m[k].px;
          assert d[i + 1].px == m[k].px;
        }
        forall i, j | 0 <= i < j < |m| ensures m[i].px != m[j].px {
          if i > 0 {
            assert m[1..][i - 1] == m[i] && m[1..][j - 1] == m[j];
          }
        }
      } else {
        WithinUnique(m, d[1..], fraction);
      }
    }
  }

  lemma BudgetOnGrid(s: Setup, e: Engine, grid: iset<real>)
    requires Budgeted(s, e) && GridBook(e.book, grid)
    ensures GridBook(e.depth, grid)
  {
    forall side: Side ensures OnGrid(LevelsOf(e.depth, side), grid) && UniquePrices(LevelsOf(e.depth, side)) {
      var m, d := LevelsOf(e.depth, side), LevelsOf(e.book, side);
      assert Within(m, d, s.depthFraction) && OnGrid(d, grid) && UniquePrices(d);
      WithinUnique(m, d, s.depthFraction);
      WithinPrices(m, d, s.depthFraction);
      forall l | l in m ensures l.px in grid {
        var k :| 0 <= k < |d| && d[k].px == l.px;
        assert d[k] in d;
      }
    }
  }

  /** A snapshot's effect on the budget: growth first, then what the sweeps draw. */
  lemma ShownGrowth(s: Setup, e: Engine, shown: OrderBook, side: Side, px: real, grid: iset<real>)
    requires 0.0 <= s.depthFraction < 1.0 && Separated(grid, s.PxThreshold()) && s.PxThreshold() >= 0.0 && px in grid
    requires GridBook(Some(shown), grid) && GridBook(e.book, grid) && GridBook(e.depth, grid) && PositiveBudget(e)
    ensures var r := Shown(s, e, shown);
            && PositiveBudget(r)
            && QtyAt(LevelsOf(r.depth, side), px)
               <= QtyAt(LevelsOf(e.depth, side), px)
                  + GrowthShare(QtyAt(shown.Levels(side), px) - QtyAt(LevelsOf(e.book, side), px), s.depthFraction)
  {
    hide CapacityLevels, GrowthShare, QtyAt;
    forall z: Side ensures PositiveQty(LevelsOf(Shown(s, e, shown).depth, z)) {
      assert LevelsOf(Some(shown), z) == shown.Levels(z);
      CapacityAt(shown.Levels(z), LevelsOf(e.book, z), LevelsOf(e.depth, z), s.depthFraction, s.PxThreshold(), px);
    }
    assert LevelsOf(Some(shown), side) == shown.Levels(side);
    CapacityGrowth(shown.Levels(side), LevelsOf(e.book, side), LevelsOf(e.depth, side), s.depthFraction,
                   s.PxThreshold(), grid, px);
  }

  lemma DepthGrowth(s: Setup, e: Engine, shown: OrderBook, side: Side, px: real, grid: iset<real>)
    requires 0.0 <= s.depthFraction < 1.0 && Separated(grid, s.PxThreshold()) && s.PxThreshold() >= 0.0 && px in grid
    requires GridBook(Some(shown), grid) && GridBook(e.book, grid) && GridBook(e.depth, grid) && PositiveBudget(e)
    ensures var r := OnDepth(s, e, shown);
            && PositiveBudget(r.engine) && r.engine.book == Some(shown)
            && QtyAt(LevelsOf(r.engine.depth, side), px) + QtyAt(r.drawn.Levels(side), px)
               <= QtyAt(LevelsOf(e.depth, side), px)
                  + GrowthShare(QtyAt(shown.Levels(side), px) - QtyAt(LevelsOf(e.book, side), px), s.depthFraction)
  {
    hide NextDepth, Swept, GrowthShare;
    ShownGrowth(s, e, shown, side, px, grid);
    var e0 := Shown(s, e, shown);
    SweepSideAccounts(s, e0, Sell, side, px);
    SweepSideAccounts(s, SweepSide(s, e0, Sell).engine, Buy, side, px);
  }

  ghost predicate WithinGrowth(s: Setup, events: seq<Event>, side: Side, px: real) {
    var e := RunEngine(s, events);
    && e.book == LastShown(events)
    && PositiveBudget(e)
    && Spent(s, events, side, px) + QtyAt(LevelsOf(e.depth, side), px) <= Allowance(s, events, side, px)
  }

  /** The fraction of the total displayed increases at a price. */
  ghost function Allowance(s: Setup, events: seq<Event>, side: Side, px: real): real {
    Grown(events, side, px) * s.depthFraction
  }

  lemma FreshWithinGrowth(s: Setup, side: Side, px: real)
    ensures WithinGrowth(s, [], side, px)
  {
  }

  lemma {:induction false} RunWithinGrowth(s: Setup, events: seq<Event>, side: Side, px: real, grid: iset<real>)
    requires 0.0 <= s.depthFraction < 1.0 && Separated(grid, s.PxThreshold()) && s.PxThreshold() >= 0.0
    requires GridRun(events, grid) && px in grid
    ensures WithinGrowth(s, events, side, px)
  {
    hide OnDepth, Activate, AfterTrade, Prepare, CancelOrder, QtyAt, GrowthShare, Allowance, Separated, GridRun,
         GridBook, PositiveBudget, Budgeted;
    if events == [] {
      FreshWithinGrowth(s, side, px);
    } else {
      var before, last := events[..|events| - 1], events[|events| - 1];
      var e := RunEngine(s, before);
      PrefixOnGrid(events, grid);
      RunWithinGrowth(s, before, side, px, grid);
      if last.DepthShown? {
        LastShownOnGrid(events, grid);
        LastShownOnGrid(before, grid);
        RunStaysBudgeted(s, before);
        BudgetOnGrid(s, e, grid);
        DepthGrowth(s, e, last.shown, side, px, grid);
        AllowanceStep(s, events, side, px);
      } else {
        StepAccounts(s, e, last, side, px);
        AllowanceKept(s, events, side, px);
      }
    }
  }

  lemma AllowanceStep(s: Setup, events: seq<Event>, side: Side, px: real)
    requires events != [] && events[|events| - 1].DepthShown?
    ensures var before := events[..|events| - 1];
            Allowance(s, events, side, px)
            == Allowance(s, before, side, px)
               + GrowthShare(QtyAt(events[|events| - 1].shown.Levels(side), px)
                             - QtyAt(LevelsOf(LastShown(before), side), px), s.depthFraction)
  {
    hide QtyAt;
    var before := events[..|events| - 1];
    Distribute(Grown(before, side, px),
               PositivePart(QtyAt(events[|events| - 1].shown.Levels(side), px)
                            - QtyAt(LevelsOf(LastShown(before), side), px)),
               s.depthFraction);
  }

  lemma AllowanceKept(s: Setup, events: seq<Event>, side: Side, px: real)
    requires events != [] && !events[|events| - 1].DepthShown?
    ensures Allowance(s, events, side, px) == Allowance(s, events[..|events| - 1], side, px)
  {
  }

  /**
   Simulated liquidity is never over-spent: with a fraction below one, over any run the liquidity drawn at a price is
   at most the fraction of the total displayed increases there.
   */
  lemma NeverOverspent(s: Setup, events: seq<Event>, side: Side, px: real, grid: iset<real>)
    requires ValidSetup(s) && s.depthFraction < 1.0
    requires Separated(grid, s.PxThreshold()) && GridRun(events, grid) && px in grid
    ensures Spent(s, events, side, px) <= Grown(events, side, px) * s.depthFraction
  {
    hide Spent, Grown, RunEngine;
    RunWithinGrowth(s, events, side, px, grid);
    QtyAtWithinTotal(LevelsOf(RunEngine(s, events).depth, side), px);
  }
}
