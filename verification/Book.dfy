/** The displayed order book: best-first price levels, delta application and liquidity consumption. */
module Book {
  import opened Common
  import opened Sequences
  import opened Sorting

  datatype Side = Buy | Sell {
    function Reverse(): Side {
      if Buy? then Sell else Buy
    }

    /** An order at `orderPx` reaches a resting price. */
    predicate Crosses(orderPx: real, restingPx: real) {
      if Buy? then orderPx >= restingPx else orderPx <= restingPx
    }

    predicate IsMorePassive(candidate: real, reference: real) {
      if Buy? then candidate < reference else candidate > reference
    }
  }

  datatype Level = Level(px: real, qty: real)

  datatype OrderBook = OrderBook(ts: nat, bids: seq<Level>, asks: seq<Level>) {
    function Levels(side: Side): seq<Level> {
      if side.Buy? then bids else asks
    }

    function WithLevels(side: Side, levels: seq<Level>): (b: OrderBook)
      ensures b.ts == ts && b.Levels(side) == levels && b.Levels(side.Reverse()) == Levels(side.Reverse())
    {
      if side.Buy? then this.(bids := levels) else this.(asks := levels)
    }
  }

  datatype Status = Empty | Recovering | Ready | Stale | Gapped

  // ---------------------------------------------------------------- well-formed sides

  predicate BidFirst(a: Level, b: Level) {
    a.px >= b.px
  }

  predicate AskFirst(a: Level, b: Level) {
    a.px <= b.px
  }

  function BestFirst(side: Side): (Level, Level) -> bool {
    if side.Buy? then BidFirst else AskFirst
  }

  ghost predicate UniquePrices(levels: seq<Level>) {
    forall i, j :: 0 <= i < j < |levels| ==> levels[i].px != levels[j].px
  }

  ghost predicate PositiveQty(levels: seq<Level>) {
    forall i :: 0 <= i < |levels| ==> levels[i].qty > 0.0
  }

  ghost predicate Sorted(levels: seq<Level>, side: Side) {
    forall i, j :: 0 <= i < j < |levels| ==> BestFirst(side)(levels[i], levels[j])
  }

  /** Best price first, each price once, every quantity positive. */
  ghost predicate WellFormed(levels: seq<Level>, side: Side) {
    UniquePrices(levels) && PositiveQty(levels) && Sorted(levels, side)
  }

  predicate ValidBook(b: OrderBook) {
    && b.bids != []
    && b.asks != []
    && b.bids[0].px < b.asks[0].px
    && (forall i :: 0 <= i < |b.bids| ==> b.bids[i].px > 0.0 && b.bids[i].qty > 0.0)
    && (forall i :: 0 <= i < |b.asks| ==> b.asks[i].px > 0.0 && b.asks[i].qty > 0.0)
  }

  /** On sorted sides a book is valid exactly when both have levels, all positive, and every bid is below every ask. */
  lemma ValidIsUncrossed(b: OrderBook)
    requires Sorted(b.bids, Buy) && Sorted(b.asks, Sell)
    ensures ValidBook(b) <==>
            && b.bids != [] && b.asks != []
            && (forall l :: l in b.bids || l in b.asks ==> l.px > 0.0 && l.qty > 0.0)
            && (forall x, y :: x in b.bids && y in b.asks ==> x.px < y.px)
  {
    forall x, y | b.asks != [] && x in b.bids && y in b.asks
      ensures x.px <= b.bids[0].px && b.asks[0].px <= y.px
    {
      var i :| 0 <= i < |b.bids| && b.bids[i] == x;
      var j :| 0 <= j < |b.asks| && b.asks[j] == y;
      assert i > 0 ==> BestFirst(Buy)(b.bids[0], b.bids[i]);
      assert j > 0 ==> BestFirst(Sell)(b.asks[0], b.asks[j]);
    }
    if b.bids != [] && b.asks != [] {
      assert b.bids[0] in b.bids && b.asks[0] in b.asks;
    }
  }

  // ---------------------------------------------------------------- taking liquidity

  datatype Taken = Taken(fills: seq<Level>, rest: seq<Level>)

  function MinReal(a: real, b: real): (r: real)
    ensures r <= a && r <= b && (r == a || r == b)
  {
    if a <= b then a else b
  }

  /** A taker reaches the level and the level has something left. */
  predicate Takeable(taker: Side, limitPx: real, level: Level) {
    level.qty > 0.0 && taker.Crosses(limitPx, level.px)
  }

  /** Walks the levels from the best, stopping at the first that is out of reach. */
  function Walk(levels: seq<Level>, taker: Side, limitPx: real, qty: real): Taken {
    if levels == [] || qty <= 0.0 || !Takeable(taker, limitPx, levels[0]) then
      Taken([], levels)
    else
      var fill := MinReal(qty, levels[0].qty);
      var more := Walk(levels[1..], taker, limitPx, qty - fill);
      Taken([Level(levels[0].px, fill)] + more.fills,
            [Level(levels[0].px, levels[0].qty - fill)] + more.rest)
  }

  /** The levels that still have quantity. */
  function Retain(levels: seq<Level>): (r: seq<Level>)
    ensures PositiveQty(r)
    ensures forall l :: l in r ==> l in levels
  {
    if levels == [] then []
    else if levels[0].qty > 0.0 then [levels[0]] + Retain(levels[1..])
    else Retain(levels[1..])
  }

  function TakeLevels(levels: seq<Level>, taker: Side, limitPx: real, qty: real): Taken {
    var walked := Walk(levels, taker, limitPx, qty);
    Taken(walked.fills, Retain(walked.rest))
  }

  /** Quantity standing at one price. */
  function QtyAt(levels: seq<Level>, px: real): real {
    if levels == [] then 0.0
    else (if levels[0].px == px then levels[0].qty else 0.0) + QtyAt(levels[1..], px)
  }

  function TotalQty(levels: seq<Level>): real {
    if levels == [] then 0.0 else levels[0].qty + TotalQty(levels[1..])
  }

  /** Quantity on the levels that a taker with this limit reaches. */
  function Reachable(levels: seq<Level>, taker: Side, limitPx: real): real {
    if levels == [] then 0.0
    else (if taker.Crosses(limitPx, levels[0].px) then levels[0].qty else 0.0)
         + Reachable(levels[1..], taker, limitPx)
  }

  /** What has been handled so far, followed by the walk over the remaining levels. */
  ghost function Continue(fills: seq<Level>, handled: seq<Level>, more: Taken): Taken {
    Taken(fills + more.fills, handled + more.rest)
  }

  lemma WalkStep(fills: seq<Level>, handled: seq<Level>, levels: seq<Level>, taker: Side, limitPx: real, open: real)
    requires levels != [] && open > 0.0 && Takeable(taker, limitPx, levels[0])
    ensures var fill := MinReal(open, levels[0].qty);
            Continue(fills, handled, Walk(levels, taker, limitPx, open))
            == Continue(fills + [Level(levels[0].px, fill)],
                        handled + [Level(levels[0].px, levels[0].qty - fill)],
                        Walk(levels[1..], taker, limitPx, open - fill))
  {
    var fill := MinReal(open, levels[0].qty);
    var more := Walk(levels[1..], taker, limitPx, open - fill);
    assert fills + ([Level(levels[0].px, fill)] + more.fills) == (fills + [Level(levels[0].px, fill)]) + more.fills;
    assert handled + ([Level(levels[0].px, levels[0].qty - fill)] + more.rest)
        == (handled + [Level(levels[0].px, levels[0].qty - fill)]) + more.rest;
  }

  lemma WalkStops(fills: seq<Level>, handled: seq<Level>, levels: seq<Level>, taker: Side, limitPx: real, open: real)
    requires levels == [] || open <= 0.0 || !Takeable(taker, limitPx, levels[0])
    ensures Continue(fills, handled, Walk(levels, taker, limitPx, open)) == Taken(fills, handled + levels)
  {
  }

  lemma WalkBegins(more: Taken)
    ensures Continue([], [], more) == more
  {
  }

  method TakeFromLevels(levels: seq<Level>, taker: Side, limitPx: real, qty: real)
    returns (fills: seq<Level>, rest: seq<Level>)
    ensures Taken(fills, rest) == TakeLevels(levels, taker, limitPx, qty)
  {
    hide Walk, Continue, Retain, MinReal;
    var standing, open := [], qty;
    fills := [];
    var i := 0;
    ghost var whole := Walk(levels, taker, limitPx, qty);
    assert levels[0..] == levels;
    WalkBegins(whole);
    while i < |levels| && open > 0.0 && Takeable(taker, limitPx, levels[i])
      invariant 0 <= i <= |levels|
      invariant whole == Continue(fills, standing, Walk(levels[i..], taker, limitPx, open))
    {
      WalkStep(fills, standing, levels[i..], taker, limitPx, open);
      assert levels[i..][1..] == levels[i + 1..];
      var fill := MinReal(open, levels[i].qty);
      standing := standing + [Level(levels[i].px, levels[i].qty - fill)];
      fills := fills + [Level(levels[i].px, fill)];
      open := open - fill;
      i := i + 1;
    }
    WalkStops(fills, standing, levels[i..], taker, limitPx, open);
    standing := standing + levels[i..];
    rest := RetainLevels(standing);
  }

  method RetainLevels(levels: seq<Level>) returns (rest: seq<Level>)
    ensures rest == Retain(levels)
  {
    rest := [];
    var i := |levels|;
    while i > 0
      invariant 0 <= i <= |levels|
      invariant rest == Retain(levels[i..])
    {
      i := i - 1;
      assert levels[i..][1..] == levels[i + 1..];
      if levels[i].qty > 0.0 {
        rest := [levels[i]] + rest;
      }
    }
  }

  // ---------------------------------------------------------------- what a take removes

  /** Each fill comes from the level at its index, within reach and no larger than it. */
  ghost predicate FillsAlign(levels: seq<Level>, taker: Side, limitPx: real, fills: seq<Level>, rest: seq<Level>) {
    && |fills| <= |levels| == |rest|
    && forall k :: 0 <= k < |fills| ==>
         && fills[k].px == levels[k].px
         && taker.Crosses(limitPx, levels[k].px)
         && 0.0 < fills[k].qty <= levels[k].qty
         && rest[k] == Level(levels[k].px, levels[k].qty - fills[k].qty)
  }

  /** A level is touched only when all better ones are exhausted, and all levels past the fills are as before. */
  ghost predicate WorseUntouched(levels: seq<Level>, fills: seq<Level>, rest: seq<Level>) {
    && |fills| <= |levels| == |rest|
    && (forall k :: 0 <= k < |fills| - 1 ==> rest[k].qty == 0.0)
    && (forall k :: |fills| <= k < |levels| ==> rest[k] == levels[k])
  }

  lemma {:induction false} WalkTakesWithinReach(levels: seq<Level>, taker: Side, limitPx: real, qty: real)
    ensures var t := Walk(levels, taker, limitPx, qty);
            FillsAlign(levels, taker, limitPx, t.fills, t.rest)
  {
    if levels != [] && qty > 0.0 && Takeable(taker, limitPx, levels[0]) {
      WalkTakesWithinReach(levels[1..], taker, limitPx, qty - MinReal(qty, levels[0].qty));
    }
  }

  lemma {:induction false} WalkTakesBestFirst(levels: seq<Level>, taker: Side, limitPx: real, qty: real)
    ensures var t := Walk(levels, taker, limitPx, qty);
            WorseUntouched(levels, t.fills, t.rest)
  {
    if levels != [] && qty > 0.0 && Takeable(taker, limitPx, levels[0]) {
      var fill := MinReal(qty, levels[0].qty);
      var t := Walk(levels, taker, limitPx, qty);
      var more := Walk(levels[1..], taker, limitPx, qty - fill);
      WalkTakesBestFirst(levels[1..], taker, limitPx, qty - fill);
      assert t.rest == [Level(levels[0].px, levels[0].qty - fill)] + more.rest;
      assert |t.fills| == 1 + |more.fills|;
      assert more.fills != [] ==> fill == levels[0].qty;
      forall k | 0 < k < |t.fills| - 1 ensures t.rest[k].qty == 0.0 {
        assert t.rest[k] == more.rest[k - 1];
      }
      forall k | |t.fills| <= k < |levels| ensures t.rest[k] == levels[k] {
        assert t.rest[k] == more.rest[k - 1] && levels[k] == levels[1..][k - 1];
      }
    }
  }

  /** On a well-formed side the quantity taken is the demand or all reachable liquidity, whichever is less. */
  lemma {:induction false} TakesExactlyReachable(levels: seq<Level>, taker: Side, limitPx: real, qty: real)
    requires WellFormed(levels, taker.Reverse()) && qty >= 0.0
    ensures TotalQty(TakeLevels(levels, taker, limitPx, qty).fills) == MinReal(qty, Reachable(levels, taker, limitPx))
  {
    if levels == [] {
    } else if !taker.Crosses(limitPx, levels[0].px) {
      NothingReachable(levels, taker, limitPx);
    } else {
      ReachableNonNegative(levels, taker, limitPx);
      ReachableNonNegative(levels[1..], taker, limitPx);
      if qty > 0.0 {
        TakesExactlyReachable(levels[1..], taker, limitPx, qty - MinReal(qty, levels[0].qty));
      }
    }
  }

  lemma {:induction false} ReachableNonNegative(levels: seq<Level>, taker: Side, limitPx: real)
    requires PositiveQty(levels)
    ensures Reachable(levels, taker, limitPx) >= 0.0
  {
    if levels != [] {
      ReachableNonNegative(levels[1..], taker, limitPx);
    }
  }

  /** Once the best level is out of reach, so is every other. */
  lemma {:induction false} NothingReachable(levels: seq<Level>, taker: Side, limitPx: real)
    requires Sorted(levels, taker.Reverse())
    requires levels != [] ==> !taker.Crosses(limitPx, levels[0].px)
    ensures Reachable(levels, taker, limitPx) == 0.0
  {
    if levels != [] {
      assert levels[1..] != [] ==> BestFirst(taker.Reverse())(levels[0], levels[1..][0]);
      NothingReachable(levels[1..], taker, limitPx);
    }
  }

  /** Nothing appears or disappears: at each price, what was taken and what remains make up what stood there. */
  lemma {:induction false} WalkConservesEachPrice(levels: seq<Level>, taker: Side, limitPx: real, qty: real, px: real)
    ensures var t := Walk(levels, taker, limitPx, qty);
            QtyAt(t.fills, px) + QtyAt(t.rest, px) == QtyAt(levels, px)
  {
    if levels != [] && qty > 0.0 && Takeable(taker, limitPx, levels[0]) {
      WalkConservesEachPrice(levels[1..], taker, limitPx, qty - MinReal(qty, levels[0].qty), px);
    }
  }

  lemma {:induction false} RetainKeepsQty(levels: seq<Level>, px: real)
    requires forall i :: 0 <= i < |levels| ==> levels[i].qty >= 0.0
    ensures QtyAt(Retain(levels), px) == QtyAt(levels, px)
  {
    if levels != [] {
      RetainKeepsQty(levels[1..], px);
    }
  }

  lemma {:induction false} RetainKeepsOrder(levels: seq<Level>, side: Side)
    requires UniquePrices(levels) && Sorted(levels, side)
    ensures WellFormed(Retain(levels), side)
  {
    if levels != [] {
      RetainKeepsOrder(levels[1..], side);
      var tail := Retain(levels[1..]);
      forall k | 0 <= k < |tail|
        ensures tail[k].px != levels[0].px && BestFirst(side)(levels[0], tail[k])
      {
        assert tail[k] in levels[1..];
      }
    }
  }

  lemma TakeConservesEachPrice(levels: seq<Level>, taker: Side, limitPx: real, qty: real, px: real)
    requires PositiveQty(levels)
    ensures var t := TakeLevels(levels, taker, limitPx, qty);
            QtyAt(t.fills, px) + QtyAt(t.rest, px) == QtyAt(levels, px)
  {
    WalkConservesEachPrice(levels, taker, limitPx, qty, px);
    WalkTakesWithinReach(levels, taker, limitPx, qty);
    WalkTakesBestFirst(levels, taker, limitPx, qty);
    RetainKeepsQty(Walk(levels, taker, limitPx, qty).rest, px);
  }

  lemma TakeKeepsWellFormed(levels: seq<Level>, taker: Side, limitPx: real, qty: real)
    requires WellFormed(levels, taker.Reverse())
    ensures WellFormed(TakeLevels(levels, taker, limitPx, qty).rest, taker.Reverse())
  {
    WalkTakesWithinReach(levels, taker, limitPx, qty);
    WalkTakesBestFirst(levels, taker, limitPx, qty);
    var rest := Walk(levels, taker, limitPx, qty).rest;
    assert forall k :: 0 <= k < |rest| ==> rest[k].px == levels[k].px;
    RetainKeepsOrder(rest, taker.Reverse());
  }

  // ---------------------------------------------------------------- applying deltas

  ghost function ToMap(levels: seq<Level>): map<real, real>
    requires UniquePrices(levels)
  {
    map l | l in levels :: l.px := l.qty
  }

  lemma MapHoldsLevel(levels: seq<Level>, l: Level)
    requires UniquePrices(levels)
    ensures l in levels <==> l.px in ToMap(levels) && ToMap(levels)[l.px] == l.qty
  {
    var m := ToMap(levels);
    if l.px in m && m[l.px] == l.qty {
      var w :| w in levels && w.px == l.px;
    }
  }

  /** The meaning of a delta: updates apply in order, a zero quantity deletes. */
  ghost function ApplyUpdates(m: map<real, real>, updates: seq<Level>): map<real, real> {
    if updates == [] then m
    else
      var before := ApplyUpdates(m, updates[..|updates| - 1]);
      var last := updates[|updates| - 1];
      if last.qty == 0.0 then before - {last.px} else before[last.px := last.qty]
  }

  function FindPrice(levels: seq<Level>, px: real): (r: Option<nat>)
    ensures r.Some? ==> r.value < |levels| && levels[r.value].px == px
    ensures r.Some? ==> forall i :: 0 <= i < r.value ==> levels[i].px != px
    ensures r.None? ==> forall i :: 0 <= i < |levels| ==> levels[i].px != px
  {
    if levels == [] then None
    else if levels[0].px == px then Some(0)
    else
      var r := FindPrice(levels[1..], px);
      if r.None? then None else Some(r.value + 1)
  }

  lemma RemoveFromMap(levels: seq<Level>, i: nat)
    requires UniquePrices(levels) && i < |levels|
    ensures UniquePrices(levels[..i] + levels[i + 1..])
    ensures ToMap(levels[..i] + levels[i + 1..]) == ToMap(levels) - {levels[i].px}
  {
    var r := levels[..i] + levels[i + 1..];
    forall l ensures l in r <==> l in levels && l.px != levels[i].px {
      RemovedMembers(levels, i, l);
    }
  }

  lemma RemovedMembers(levels: seq<Level>, i: nat, l: Level)
    requires UniquePrices(levels) && i < |levels|
    ensures l in levels[..i] + levels[i + 1..] <==> l in levels && l.px != levels[i].px
  {
    if l in levels && l.px != levels[i].px {
      var k :| 0 <= k < |levels| && levels[k] == l;
      assert k < i ==> levels[..i][k] == l;
      assert k > i ==> levels[i + 1..][k - i - 1] == l;
    }
  }

  lemma SetInMap(levels: seq<Level>, i: nat, qty: real)
    requires UniquePrices(levels) && i < |levels|
    ensures UniquePrices(levels[i := Level(levels[i].px, qty)])
    ensures ToMap(levels[i := Level(levels[i].px, qty)]) == ToMap(levels)[levels[i].px := qty]
  {
    var r := levels[i := Level(levels[i].px, qty)];
    assert r[i] in r;
    forall l ensures l in r <==> l == r[i] || (l in levels && l.px != levels[i].px) {
      if l in levels && l.px != levels[i].px {
        var k :| 0 <= k < |levels| && levels[k] == l;
        assert r[k] == l;
      }
    }
  }

  lemma PushToMap(levels: seq<Level>, u: Level)
    requires UniquePrices(levels)
    requires forall i :: 0 <= i < |levels| ==> levels[i].px != u.px
    ensures UniquePrices(levels + [u])
    ensures ToMap(levels + [u]) == ToMap(levels)[u.px := u.qty]
  {
    assert forall l :: l in levels + [u] <==> l in levels || l == u;
  }

  lemma BestFirstIsPreorder(side: Side)
    ensures Preorder(BestFirst(side))
  {
  }

  /** An arrangement of levels with unique prices has unique prices. */
  lemma ArrangementKeepsUnique(levels: seq<Level>, r: seq<Level>)
    requires UniquePrices(levels) && multiset(r) == multiset(levels)
    ensures UniquePrices(r)
  {
    forall i, j | 0 <= i < j < |r| ensures r[i].px != r[j].px {
      assert r[i] in multiset(r) && r[j] in multiset(r);
      assert r[i] in levels && r[j] in levels;
      if r[i] == r[j] {
        RepeatedMeansMultiple(r, i, j);
        CountInDistinct(levels, r[i]);
      }
    }
  }

  lemma RepeatedMeansMultiple(r: seq<Level>, i: nat, j: nat)
    requires i < j < |r| && r[i] == r[j]
    ensures multiset(r)[r[i]] >= 2
  {
    assert r == r[..i] + [r[i]] + r[i + 1..j] + [r[j]] + r[j + 1..];
  }

  lemma SortLevels(levels: seq<Level>, side: Side)
    ensures var r := SortBy(levels, BestFirst(side));
            Sorted(r, side) && (UniquePrices(levels) ==> UniquePrices(r) && ToMap(r) == ToMap(levels))
  {
    BestFirstIsPreorder(side);
    SortByIsSorted(levels, BestFirst(side));
    SortByMembers(levels, BestFirst(side));
    if UniquePrices(levels) {
      ArrangementKeepsUnique(levels, SortBy(levels, BestFirst(side)));
    }
  }

  /** The quantities listed at one price, in list order: nothing keeps a snapshot from repeating a price. */
  function StackAt(levels: seq<Level>, px: real): seq<real> {
    if levels == [] then []
    else (if levels[0].px == px then [levels[0].qty] else []) + StackAt(levels[1..], px)
  }

  /** An update reaches the first entry at its price. */
  function UpdateStack(stack: seq<real>, qty: real): seq<real> {
    if stack == [] then (if qty > 0.0 then [qty] else [])
    else if qty == 0.0 then stack[1..]
    else [qty] + stack[1..]
  }

  function UpdatesAt(stack: seq<real>, updates: seq<Level>, px: real): seq<real> {
    if updates == [] then stack
    else
      var before := UpdatesAt(stack, updates[..|updates| - 1], px);
      var last := updates[|updates| - 1];
      if last.px == px then UpdateStack(before, last.qty) else before
  }

  lemma {:induction false} StackAppend(a: seq<Level>, b: seq<Level>, px: real)
    ensures StackAt(a + b, px) == StackAt(a, px) + StackAt(b, px)
  {
    if a == [] {
      assert a + b == b;
    } else {
      StackAppend(a[1..], b, px);
      assert (a + b)[0] == a[0] && (a + b)[1..] == a[1..] + b;
      AppendAssociates(if a[0].px == px then [a[0].qty] else [], StackAt(a[1..], px), StackAt(b, px));
    }
  }

  lemma {:induction false} NoStack(levels: seq<Level>, px: real)
    requires forall i :: 0 <= i < |levels| ==> levels[i].px != px
    ensures StackAt(levels, px) == []
  {
    if levels != [] {
      NoStack(levels[1..], px);
    }
  }

  lemma StackSplit(levels: seq<Level>, i: nat, px: real)
    requires i < |levels|
    ensures StackAt(levels, px)
            == StackAt(levels[..i], px) + (if levels[i].px == px then [levels[i].qty] else []) + StackAt(levels[i + 1..], px)
  {
    assert levels == levels[..i] + levels[i..];
    StackAppend(levels[..i], levels[i..], px);
    assert levels[i..][1..] == levels[i + 1..];
  }

  /** Replacing or removing the first entry at a price updates that price's stack and no other. */
  lemma FirstUpdated(levels: seq<Level>, i: nat, qty: real, px: real)
    requires i < |levels| && forall j :: 0 <= j < i ==> levels[j].px != levels[i].px
    ensures var now := if qty == 0.0 then levels[..i] + levels[i + 1..] else levels[i := Level(levels[i].px, qty)];
            StackAt(now, px) == if px == levels[i].px then UpdateStack(StackAt(levels, px), qty) else StackAt(levels, px)
  {
    hide StackAt;
    StackSplit(levels, i, px);
    if px == levels[i].px {
      NoStack(levels[..i], px);
    }
    if qty == 0.0 {
      StackAppend(levels[..i], levels[i + 1..], px);
    } else {
      var now := levels[i := Level(levels[i].px, qty)];
      StackSplit(now, i, px);
      assert now[..i] == levels[..i] && now[i + 1..] == levels[i + 1..];
    }
  }

  lemma Pushed(levels: seq<Level>, u: Level, px: real)
    requires forall i :: 0 <= i < |levels| ==> levels[i].px != u.px
    ensures StackAt(levels + [u], px)
            == if px == u.px then [u.qty] else StackAt(levels, px)
    ensures StackAt(levels, u.px) == []
  {
    StackAppend(levels, [u], px);
    NoStack(levels, u.px);
    assert [u][1..] == [];
    assert StackAt([u], px) == if px == u.px then [u.qty] else [];
    assert StackAt(levels, px) + [] == StackAt(levels, px);
  }

  lemma {:induction false} InsertStack(x: Level, levels: seq<Level>, side: Side, px: real)
    ensures StackAt(InsertBy(x, levels, BestFirst(side)), px) == StackAt([x] + levels, px)
  {
    if levels != [] && !BestFirst(side)(x, levels[0]) {
      var rest := InsertBy(x, levels[1..], BestFirst(side));
      InsertStack(x, levels[1..], side, px);
      assert ([levels[0]] + rest)[1..] == rest;
      assert ([x] + levels)[1..] == levels && ([x] + levels[1..])[1..] == levels[1..];
    }
  }

  /** The sort is stable. */
  lemma {:induction false} SortStack(levels: seq<Level>, side: Side, px: real)
    ensures StackAt(SortBy(levels, BestFirst(side)), px) == StackAt(levels, px)
  {
    hide InsertBy;
    if levels != [] {
      var rest := SortBy(levels[1..], BestFirst(side));
      SortStack(levels[1..], side, px);
      InsertStack(levels[0], rest, side, px);
      assert ([levels[0]] + rest)[1..] == rest;
    }
  }

  method ApplyUpdate(levels: seq<Level>, update: Level) returns (result: seq<Level>)
    requires update.qty >= 0.0
    ensures forall px :: StackAt(result, px)
                         == if px == update.px then UpdateStack(StackAt(levels, px), update.qty) else StackAt(levels, px)
    ensures UniquePrices(levels) ==> UniquePrices(result) && ToMap(result) == ApplyUpdates(ToMap(levels), [update])
  {
    hide StackAt;
    result := levels;
    assert [update][..0] == [];
    var found := FindPrice(levels, update.px);
    if found.Some? {
      var i := found.value;
      forall px {
        FirstUpdated(levels, i, update.qty, px);
      }
      if UniquePrices(levels) {
        RemoveFromMap(levels, i);
        SetInMap(levels, i, update.qty);
      }
      if update.qty == 0.0 {
        result := levels[..i] + levels[i + 1..];
      } else {
        result := levels[i := Level(levels[i].px, update.qty)];
      }
    } else {
      forall px {
        Pushed(levels, update, px);
      }
      if UniquePrices(levels) {
        PushToMap(levels, update);
        assert update.px !in ToMap(levels);
      }
      if update.qty > 0.0 {
        result := levels + [update];
      }
    }
  }

  lemma UpdatesSnoc(m: map<real, real>, updates: seq<Level>, k: nat)
    requires k < |updates|
    ensures ApplyUpdates(m, updates[..k + 1]) == ApplyUpdates(ApplyUpdates(m, updates[..k]), [updates[k]])
    ensures forall stack, px :: UpdatesAt(stack, updates[..k + 1], px)
                                == var before := UpdatesAt(stack, updates[..k], px);
                                   if updates[k].px == px then UpdateStack(before, updates[k].qty) else before
  {
    assert updates[..k + 1][..k] == updates[..k] && [updates[k]][..0] == [];
  }

  /** Each price's stack is updated in order and the sides sorted; with unique prices that updates the price map. */
  method ApplySideDelta(levels: seq<Level>, updates: seq<Level>, side: Side) returns (result: seq<Level>)
    requires forall u :: u in updates ==> u.qty >= 0.0
    ensures Sorted(result, side)
    ensures forall px :: StackAt(result, px) == UpdatesAt(StackAt(levels, px), updates, px)
    ensures UniquePrices(levels) ==> UniquePrices(result) && ToMap(result) == ApplyUpdates(ToMap(levels), updates)
  {
    hide StackAt, UpdateStack, ApplyUpdates, UpdatesAt, ToMap;
    result := levels;
    NoUpdates(levels);
    for k := 0 to |updates|
      invariant forall px :: StackAt(result, px) == UpdatesAt(StackAt(levels, px), updates[..k], px)
      invariant UniquePrices(levels) ==>
                  UniquePrices(result) && ToMap(result) == ApplyUpdates(ToMap(levels), updates[..k])
    {
      UpdatesSnoc(if UniquePrices(levels) then ToMap(levels) else map[], updates, k);
      result := ApplyUpdate(result, updates[k]);
    }
    assert updates[..|updates|] == updates;
    forall px {
      SortStack(result, side, px);
    }
    SortLevels(result, side);
    result := SortBy(result, BestFirst(side));
  }

  lemma NoUpdates(levels: seq<Level>)
    ensures forall px :: UpdatesAt(StackAt(levels, px), [], px) == StackAt(levels, px)
    ensures UniquePrices(levels) ==> ApplyUpdates(ToMap(levels), []) == ToMap(levels)
  {
  }

  /** The sorted listing of a price map is unique, so a delta's outcome is determined by the map alone. */
  lemma SortedListingUnique(a: seq<Level>, b: seq<Level>, side: Side)
    requires UniquePrices(a) && UniquePrices(b) && Sorted(a, side) && Sorted(b, side)
    requires ToMap(a) == ToMap(b)
    ensures a == b
  {
    forall l ensures l in a <==> l in b {
      MapHoldsLevel(a, l);
      MapHoldsLevel(b, l);
    }
    SameMembersArrange(a, b);
    SortedArrangementsEqual(a, b, BestFirst(side));
  }

  // ---------------------------------------------------------------- reducer

  ghost predicate SideUpdated(levels: seq<Level>, updates: seq<Level>, side: Side, now: seq<Level>) {
    && Sorted(now, side)
    && (forall px :: StackAt(now, px) == UpdatesAt(StackAt(levels, px), updates, px))
    && (UniquePrices(levels) ==> UniquePrices(now) && ToMap(now) == ApplyUpdates(ToMap(levels), updates))
  }

  /** A best-first side is determined by its stacks, so a delta's outcome is too. */
  lemma {:induction false} StacksDetermine(a: seq<Level>, b: seq<Level>, side: Side)
    requires Sorted(a, side) && Sorted(b, side) && forall px :: StackAt(a, px) == StackAt(b, px)
    ensures a == b
  {
    hide StackAt;
    if a == [] {
      EmptyStacks(b);
    } else {
      HeadOfStacks(a, b, side);
      forall px ensures StackAt(a[1..], px) == StackAt(b[1..], px) {
        TailStack(a, b, px);
      }
      StacksDetermine(a[1..], b[1..], side);
      assert a == [a[0]] + a[1..] && b == [b[0]] + b[1..];
    }
  }

  lemma EmptyStacks(b: seq<Level>)
    requires forall px :: StackAt([], px) == StackAt(b, px)
    ensures b == []
  {
    HeadHasStack(b);
  }

  lemma HeadHasStack(b: seq<Level>)
    ensures b != [] ==> StackAt(b, b[0].px) != []
  {
  }

  lemma TailStack(a: seq<Level>, b: seq<Level>, px: real)
    requires a != [] && b != [] && a[0] == b[0] && StackAt(a, px) == StackAt(b, px)
    ensures StackAt(a[1..], px) == StackAt(b[1..], px)
  {
    if px == a[0].px {
      assert StackAt(a, px) == [a[0].qty] + StackAt(a[1..], px) && StackAt(b, px) == [a[0].qty] + StackAt(b[1..], px);
      assert StackAt(a, px)[1..] == StackAt(a[1..], px) && StackAt(b, px)[1..] == StackAt(b[1..], px);
    } else {
      assert [] + StackAt(a[1..], px) == StackAt(a[1..], px) && [] + StackAt(b[1..], px) == StackAt(b[1..], px);
    }
  }

  lemma HeadOfStacks(a: seq<Level>, b: seq<Level>, side: Side)
    requires Sorted(a, side) && Sorted(b, side) && a != [] && forall px :: StackAt(a, px) == StackAt(b, px)
    ensures b != [] && b[0] == a[0]
  {
    assert StackAt(b, a[0].px) == StackAt(a, a[0].px) != [];
    StackNamed(b, a[0].px);
    assert b != [];
    assert StackAt(a, b[0].px) == StackAt(b, b[0].px) != [];
    StackNamed(a, b[0].px);
    assert a[0].px == b[0].px;
    assert StackAt(a, a[0].px)[0] == a[0].qty && StackAt(b, b[0].px)[0] == b[0].qty;
  }

  /** A price with a stack is one of the levels' prices. */
  lemma StackNamed(levels: seq<Level>, px: real)
    requires StackAt(levels, px) != []
    ensures exists i :: 0 <= i < |levels| && levels[i].px == px
  {
    if forall i :: 0 <= i < |levels| ==> levels[i].px != px {
      NoStack(levels, px);
    }
  }

  class BookReducer {
    var status: Status
    var book: Option<OrderBook>
    var lastUpdate: Option<nat>

    constructor ()
      ensures status == Empty && book == None && lastUpdate == None
    {
      status, book, lastUpdate := Empty, None, None;
    }

    method ApplySnapshot(snapshot: OrderBook)
      modifies this
      ensures book == Some(snapshot) && lastUpdate == Some(snapshot.ts)
      ensures status == if ValidBook(snapshot) then Ready else Empty
    {
      lastUpdate := Some(snapshot.ts);
      status := if ValidBook(snapshot) then Ready else Empty;
      book := Some(snapshot);
    }

    /**
     A delta with a negative quantity changes nothing but the status; otherwise both sides become best-first listings
     with each price's stack updated in order, and from unique prices those of the updated price maps.
     */
    method ApplyDelta(ts: nat, bids: seq<Level>, asks: seq<Level>)
      modifies this
      ensures var rejected := exists u :: u in bids + asks && u.qty < 0.0;
              if rejected || old(book).None? then
                && book == old(book) && lastUpdate == old(lastUpdate)
                && status == (if rejected then Gapped else Empty)
              else
                && book.Some? && book.value.ts == ts && lastUpdate == Some(ts)
                && SideUpdated(old(book).value.bids, bids, Buy, book.value.bids)
                && SideUpdated(old(book).value.asks, asks, Sell, book.value.asks)
                && status == (if ValidBook(book.value) then Ready else Empty)
    {
      if exists i :: 0 <= i < |bids + asks| && (bids + asks)[i].qty < 0.0 {
        status := Gapped;
        return;
      }
      if book.None? {
        status := Empty;
        return;
      }
      forall u | u in bids || u in asks ensures u.qty >= 0.0 {
        assert u in bids + asks;
      }
      var newBids := ApplySideDelta(book.value.bids, bids, Buy);
      var newAsks := ApplySideDelta(book.value.asks, asks, Sell);
      book := Some(OrderBook(ts, newBids, newAsks));
      lastUpdate := Some(ts);
      status := if ValidBook(book.value) then Ready else Empty;
    }

    method TakeLiquidity(taker: Side, limitPx: real, qty: real) returns (fills: seq<Level>)
      modifies this
      ensures lastUpdate == old(lastUpdate)
      ensures old(book).None? ==> fills == [] && book == None && status == old(status)
      ensures old(book).Some? ==>
                var t := TakeLevels(old(book).value.Levels(taker.Reverse()), taker, limitPx, qty);
                && fills == t.fills
                && book == Some(old(book).value.WithLevels(taker.Reverse(), t.rest))
                && status == (if ValidBook(book.value) then Ready else Empty)
    {
      if book.None? {
        return [];
      }
      var rest;
      fills, rest := TakeFromLevels(book.value.Levels(taker.Reverse()), taker, limitPx, qty);
      book := Some(book.value.WithLevels(taker.Reverse(), rest));
      status := if ValidBook(book.value) then Ready else Empty;
    }
  }
}
