/** What a historical trade may and must do to the resting orders of one side. */
module MatchingTrade {
  import opened Sorting
  import opened Book
  import opened Matching

  // ---------------------------------------------------------------- sound orders

  /** Open and filled quantity partition the order, and a live order has something open at a positive price. */
  ghost predicate Sound(o: Order) {
    && o.open >= 0.0 && o.filled >= 0.0 && o.open + o.filled == o.qty
    && (o.status.Live? || o.status.PartiallyFilled? ==> o.open > 0.0 && o.price > 0.0)
    && (o.status.Filled? ==> o.open == 0.0)
    && (o.status.PendingNew? ==> o.filled == 0.0)
  }

  lemma FillMovesOpenToFilled(o: Order, qty: real)
    requires Sound(o) && !o.IsTerminal() && 0.0 < qty <= o.open && o.price > 0.0
    ensures var f := o.Fill(qty);
            && Sound(f) && f.side == o.side && f.price == o.price && f.qty == o.qty && f.tif == o.tif
            && f.open == o.open - qty && f.filled == o.filled + qty
            && f.status == (if f.open == 0.0 then Filled else PartiallyFilled)
  {
  }

  // ---------------------------------------------------------------- the list of resting orders

  /** The list is in priority order and each entry describes a sound live order. */
  ghost predicate RestingList(list: seq<Entry>, side: Side, orders: map<Id, Order>) {
    && DistinctIds(list)
    && SortedBy(list, Priority(side))
    && forall x :: x in list ==>
         x.id in orders && orders[x.id].IsLive() && Sound(orders[x.id]) && orders[x.id].price == x.price
  }

  lemma RestingTail(list: seq<Entry>, side: Side, orders: map<Id, Order>, id: Id, o: Order)
    requires list != [] && RestingList(list, side, orders) && id == list[0].id
    ensures RestingList(list[1..], side, orders[id := o])
    ensures forall x :: x in list[1..] ==> x.id != id
  {
    forall x | x in list[1..] ensures x in list && x.id != id {
      var k :| 0 <= k < |list[1..]| && list[1..][k] == x;
      assert list[k + 1] == x;
    }
  }

  /** Total quantity that the listed orders lost. */
  ghost function OpenDrop(list: seq<Entry>, before: map<Id, Order>, after: map<Id, Order>): real
    requires forall x :: x in list ==> x.id in before && x.id in after
  {
    if list == [] then 0.0
    else before[list[0].id].open - after[list[0].id].open + OpenDrop(list[1..], before, after)
  }

  ghost function AheadOf(meta: map<Id, Meta>, id: Id): real {
    if id in meta then meta[id].ahead else 0.0
  }

  /** Total queue that a trade at `px` consumed ahead of the listed orders standing at that price. */
  ghost function QueueDrop(s: Setup, px: real, list: seq<Entry>, before: map<Id, Meta>, after: map<Id, Meta>): real {
    if list == [] then 0.0
    else (if ApproxEq(px, list[0].price, s.PxThreshold()) then AheadOf(before, list[0].id) - AheadOf(after, list[0].id)
          else 0.0)
         + QueueDrop(s, px, list[1..], before, after)
  }

  lemma {:induction false} DropsAgree(s: Setup, px: real, list: seq<Entry>, o1: map<Id, Order>, o2: map<Id, Order>,
                                      p1: map<Id, Order>, p2: map<Id, Order>,
                                      m1: map<Id, Meta>, m2: map<Id, Meta>, n1: map<Id, Meta>, n2: map<Id, Meta>)
    requires forall x :: x in list ==> x.id in o1 && x.id in o2 && x.id in p1 && x.id in p2
    requires forall x :: x in list ==> o1[x.id] == p1[x.id] && o2[x.id] == p2[x.id]
    requires forall x :: x in list ==> AheadOf(m1, x.id) == AheadOf(n1, x.id) && AheadOf(m2, x.id) == AheadOf(n2, x.id)
    ensures OpenDrop(list, o1, o2) == OpenDrop(list, p1, p2)
    ensures QueueDrop(s, px, list, m1, m2) == QueueDrop(s, px, list, n1, n2)
  {
    if list != [] {
      DropsAgree(s, px, list[1..], o1, o2, p1, p2, m1, m2, n1, n2);
    }
  }

  lemma {:induction false} NoDrop(s: Setup, px: real, list: seq<Entry>, o: map<Id, Order>, m: map<Id, Meta>)
    requires forall x :: x in list ==> x.id in o
    ensures OpenDrop(list, o, o) == 0.0 && QueueDrop(s, px, list, m, m) == 0.0
  {
    if list != [] {
      NoDrop(s, px, list[1..], o, m);
    }
  }

  // ---------------------------------------------------------------- one order

  /** The trade's effect on the first order of the list. */
  ghost function HeadStep(s: Setup, px: real, x: Entry, t: Trading): Trading
    requires x.id in t.orders
  {
    var passed := PassQueue(s, px, x.id, t.orders[x.id].price, t);
    if passed.left <= 0.0 then passed else FillFromTrade(x.id, passed)
  }

  lemma HeadStepEffect(s: Setup, px: real, x: Entry, t: Trading)
    requires x.id in t.orders && t.orders[x.id].IsLive() && Sound(t.orders[x.id]) && t.orders[x.id].price == x.price
    requires t.left > 0.0
    ensures var r := HeadStep(s, px, x, t);
            && r.orders.Keys == t.orders.Keys && r.meta.Keys == t.meta.Keys
            && (forall id :: id in t.orders && id != x.id ==> r.orders[id] == t.orders[id])
            && (forall id :: id in t.meta && id != x.id ==> r.meta[id] == t.meta[id])
            && Sound(r.orders[x.id]) && r.orders[x.id].open <= t.orders[x.id].open
            && r.left >= 0.0
            && (r.left > 0.0 ==> r.orders[x.id].open == 0.0)
            && t.left - r.left
               == t.orders[x.id].open - r.orders[x.id].open
                  + if ApproxEq(px, x.price, s.PxThreshold()) then AheadOf(t.meta, x.id) - AheadOf(r.meta, x.id) else 0.0
  {
    var passed := PassQueue(s, px, x.id, t.orders[x.id].price, t);
    if passed.left > 0.0 {
      var o := t.orders[x.id];
      FillMovesOpenToFilled(o, MinReal(o.open, passed.left));
    }
  }

  /** The loop handles a crossing head by one head step and then the tail. */
  lemma LoopUnfolds(s: Setup, px: real, taker: Side, list: seq<Entry>, t: Trading)
    requires list != [] && t.left > 0.0 && list[0].id in t.orders && taker.Crosses(px, t.orders[list[0].id].price)
    ensures TradeLoop(s, px, taker, list, t) == TradeLoop(s, px, taker, list[1..], HeadStep(s, px, list[0], t))
  {
    var passed := PassQueue(s, px, list[0].id, t.orders[list[0].id].price, t);
    if passed.left <= 0.0 {
      assert TradeLoop(s, px, taker, list[1..], passed) == passed;
    }
  }

  // ---------------------------------------------------------------- the whole loop

  ghost predicate Listed(list: seq<Entry>, id: Id) {
    exists x :: x in list && x.id == id
  }

  /** Only listed orders change, and what changes stays sound and never grows. */
  ghost predicate Kept(list: seq<Entry>, t: Trading, r: Trading) {
    && r.orders.Keys == t.orders.Keys && r.meta.Keys == t.meta.Keys
    && (forall id :: id in t.orders && !Listed(list, id) ==> r.orders[id] == t.orders[id])
    && (forall id :: id in t.meta && !Listed(list, id) ==> r.meta[id] == t.meta[id])
    && (forall x :: x in list && x.id in t.orders ==>
          Sound(r.orders[x.id]) && r.orders[x.id].open <= t.orders[x.id].open)
  }

  /** Once the list head no longer crosses, nothing on the list does. */
  lemma CrossingIsMonotone(list: seq<Entry>, taker: Side, px: real, orders: map<Id, Order>)
    requires list != [] && RestingList(list, taker.Reverse(), orders)
    requires !taker.Crosses(px, list[0].price)
    ensures forall x :: x in list ==> !taker.Crosses(px, x.price)
  {
    forall x | x in list ensures !taker.Crosses(px, x.price) {
      var k :| 0 <= k < |list| && list[k] == x;
      assert k == 0 || Priority(taker.Reverse())(list[0], list[k]);
    }
  }

  lemma HeadThenTail(s: Setup, px: real, taker: Side, list: seq<Entry>, t: Trading) returns (u: Trading)
    requires list != [] && RestingList(list, taker.Reverse(), t.orders) && t.left > 0.0
    requires taker.Crosses(px, list[0].price)
    ensures u == HeadStep(s, px, list[0], t)
    ensures TradeLoop(s, px, taker, list, t) == TradeLoop(s, px, taker, list[1..], u)
    ensures RestingList(list[1..], taker.Reverse(), u.orders) && u.left >= 0.0
    ensures !Listed(list[1..], list[0].id)
  {
    u := HeadStep(s, px, list[0], t);
    assert list[0] in list;
    HeadStepEffect(s, px, list[0], t);
    LoopUnfolds(s, px, taker, list, t);
    RestingTail(list, taker.Reverse(), t.orders, list[0].id, u.orders[list[0].id]);
    assert t.orders[list[0].id := u.orders[list[0].id]] == u.orders;
  }

  lemma {:induction false} TradeKeeps(s: Setup, px: real, taker: Side, list: seq<Entry>, t: Trading)
    requires RestingList(list, taker.Reverse(), t.orders) && t.left >= 0.0
    ensures Kept(list, t, TradeLoop(s, px, taker, list, t))
    ensures TradeLoop(s, px, taker, list, t).left >= 0.0
    decreases |list|
  {
    if list != [] && t.left > 0.0 && taker.Crosses(px, list[0].price) {
      var u := HeadThenTail(s, px, taker, list, t);
      HeadStepEffect(s, px, list[0], t);
      TradeKeeps(s, px, taker, list[1..], u);
      KeptThroughHead(list, t, u, TradeLoop(s, px, taker, list, t));
    } else {
      assert list != [] ==> list[0] in list;
    }
  }

  lemma KeptThroughHead(list: seq<Entry>, t: Trading, u: Trading, r: Trading)
    requires list != [] && list[0].id in t.orders && !Listed(list[1..], list[0].id)
    requires u.orders.Keys == t.orders.Keys && u.meta.Keys == t.meta.Keys
    requires forall id :: id in t.orders && id != list[0].id ==> u.orders[id] == t.orders[id]
    requires forall id :: id in t.meta && id != list[0].id ==> u.meta[id] == t.meta[id]
    requires Sound(u.orders[list[0].id]) && u.orders[list[0].id].open <= t.orders[list[0].id].open
    requires Kept(list[1..], u, r)
    ensures Kept(list, t, r)
  {
    assert list[0] in list;
    assert forall x :: x in list ==> x == list[0] || x in list[1..];
    forall id | !Listed(list, id) ensures !Listed(list[1..], id) && id != list[0].id {
      assert forall x :: x in list[1..] ==> x in list;
    }
  }

  /** The drops over a list are the drops at its head and, from the state after the head, over its tail. */
  lemma DropsSplit(s: Setup, px: real, list: seq<Entry>, t: Trading, u: Trading, r: Trading)
    requires list != [] && (forall x :: x in list ==> x.id in t.orders && x.id in u.orders && x.id in r.orders)
    requires !Listed(list[1..], list[0].id)
    requires u.orders.Keys == t.orders.Keys && u.meta.Keys == t.meta.Keys
    requires forall id :: id in t.orders && id != list[0].id ==> u.orders[id] == t.orders[id]
    requires forall id :: id in t.meta && id != list[0].id ==> u.meta[id] == t.meta[id]
    ensures forall x :: x in list[1..] ==> x.id in u.orders && x.id in r.orders
    ensures OpenDrop(list, t.orders, r.orders)
            == t.orders[list[0].id].open - r.orders[list[0].id].open + OpenDrop(list[1..], u.orders, r.orders)
    ensures QueueDrop(s, px, list, t.meta, r.meta)
            == (if ApproxEq(px, list[0].price, s.PxThreshold())
                then AheadOf(t.meta, list[0].id) - AheadOf(r.meta, list[0].id) else 0.0)
               + QueueDrop(s, px, list[1..], u.meta, r.meta)
  {
    forall x | x in list[1..] ensures x.id != list[0].id && x in list {
      assert Listed(list[1..], x.id);
    }
    DropsAgree(s, px, list[1..], u.orders, r.orders, t.orders, r.orders, u.meta, r.meta, t.meta, r.meta);
  }

  /** What the trade lost went into fills and into the queue at its price. */
  ghost predicate VolumeConserved(s: Setup, px: real, list: seq<Entry>, t: Trading, r: Trading) {
    && (forall x :: x in list ==> x.id in t.orders && x.id in r.orders)
    && t.left - r.left == OpenDrop(list, t.orders, r.orders) + QueueDrop(s, px, list, t.meta, r.meta)
  }

  lemma {:induction false} TradeConservesVolume(s: Setup, px: real, taker: Side, list: seq<Entry>, t: Trading)
    requires RestingList(list, taker.Reverse(), t.orders) && t.left >= 0.0
    ensures VolumeConserved(s, px, list, t, TradeLoop(s, px, taker, list, t))
    decreases |list|
  {
    var r := TradeLoop(s, px, taker, list, t);
    TradeKeeps(s, px, taker, list, t);
    if list != [] && t.left > 0.0 && taker.Crosses(px, list[0].price) {
      var u := HeadThenTail(s, px, taker, list, t);
      HeadStepEffect(s, px, list[0], t);
      TradeConservesVolume(s, px, taker, list[1..], u);
      TradeKeeps(s, px, taker, list[1..], u);
      DropsSplit(s, px, list, t, u, r);
    } else {
      assert list != [] ==> list[0] in list;
      NoDrop(s, px, list, t.orders, t.meta);
    }
  }

  /** An order is reached only when every order ahead of it on the list is completely filled. */
  ghost predicate InPriority(list: seq<Entry>, before: map<Id, Order>, after: map<Id, Order>)
    requires forall x :: x in list ==> x.id in before && x.id in after
  {
    forall i, j :: 0 <= i < j < |list| && after[list[j].id].open < before[list[j].id].open ==>
                     after[list[i].id].open == 0.0
  }

  lemma {:induction false} TradeRespectsPriority(s: Setup, px: real, taker: Side, list: seq<Entry>, t: Trading)
    requires RestingList(list, taker.Reverse(), t.orders) && t.left >= 0.0
    ensures var r := TradeLoop(s, px, taker, list, t);
            && (forall x :: x in list ==> x.id in t.orders && x.id in r.orders)
            && InPriority(list, t.orders, r.orders)
    decreases |list|
  {
    var r := TradeLoop(s, px, taker, list, t);
    TradeKeeps(s, px, taker, list, t);
    if list != [] && t.left > 0.0 && taker.Crosses(px, list[0].price) {
      var u := HeadThenTail(s, px, taker, list, t);
      HeadStepEffect(s, px, list[0], t);
      TradeRespectsPriority(s, px, taker, list[1..], u);
      TradeKeeps(s, px, taker, list[1..], u);
      assert r.orders[list[0].id] == u.orders[list[0].id];
      hide TradeLoop, HeadStep;
      forall i, j | 0 <= i < j < |list| && r.orders[list[j].id].open < t.orders[list[j].id].open
        ensures r.orders[list[i].id].open == 0.0
      {
        assert list[j] == list[1..][j - 1] && Listed(list[1..], list[j].id);
        assert u.orders[list[j].id] == t.orders[list[j].id];
        if i > 0 {
          assert list[i] == list[1..][i - 1];
        } else {
          assert u.left > 0.0;
        }
      }
    }
  }

  /** Volume left over means that every order the trade crosses is completely filled. */
  lemma {:induction false} LeftoverMeansAllFilled(s: Setup, px: real, taker: Side, list: seq<Entry>, t: Trading)
    requires RestingList(list, taker.Reverse(), t.orders) && t.left >= 0.0
    requires TradeLoop(s, px, taker, list, t).left > 0.0
    ensures forall x :: x in list && taker.Crosses(px, x.price) ==>
              var r := TradeLoop(s, px, taker, list, t); x.id in r.orders && r.orders[x.id].open == 0.0
    decreases |list|
  {
    var r := TradeLoop(s, px, taker, list, t);
    if list != [] && t.left > 0.0 {
      assert list[0] in list;
      if taker.Crosses(px, list[0].price) {
        var u := HeadThenTail(s, px, taker, list, t);
        HeadStepEffect(s, px, list[0], t);
        LeftoverMeansAllFilled(s, px, taker, list[1..], u);
        TradeKeeps(s, px, taker, list[1..], u);
        assert u.left > 0.0;
        assert forall x :: x in list ==> x == list[0] || x in list[1..];
      } else {
        CrossingIsMonotone(list, taker, px, t.orders);
      }
    }
  }
}
