/**
 The simulated matching engine: resting orders with price-time priority and a queue ahead, a displayed book,
 and a separate liquidity budget that simulated fills draw from.
 */
module Matching {
  import opened Common
  import opened Sorting
  import opened Book

  // ---------------------------------------------------------------- orders

  datatype Tif = Gtc | Ioc | PostOnly

  datatype OrderStatus = PendingNew | Live | PartiallyFilled | Filled | Cancelled | Rejected

  datatype Order = Order(side: Side, price: real, qty: real, tif: Tif, status: OrderStatus, open: real, filled: real) {
    predicate IsLive() {
      open > 0.0 && (status.Live? || status.PartiallyFilled?)
    }

    predicate IsTerminal() {
      status.Filled? || status.Cancelled? || status.Rejected?
    }

    function Fill(fillQty: real): Order {
      if fillQty <= 0.0 || open <= 0.0 || IsTerminal() then this
      else
        var total := filled + MinReal(fillQty, open);
        var left := if qty - total > 0.0 then qty - total else 0.0;
        this.(filled := total, open := left, status := if left <= 0.0 then Filled else PartiallyFilled)
    }

    function MarkLive(): Order {
      if open <= 0.0 || IsTerminal() then this else this.(status := Live)
    }

    function Cancel(): Order {
      if IsTerminal() then this else this.(status := Cancelled)
    }

    function Reject(): Order {
      if IsTerminal() then this else this.(status := Rejected)
    }
  }

  /** The fills of one take, applied one after another. */
  function FillEach(o: Order, fills: seq<Level>): Order
    decreases |fills|
  {
    if fills == [] then o else FillEach(o.Fill(fills[0].qty), fills[1..])
  }

  type Id = nat

  datatype Meta = Meta(arrival: nat, ahead: real)

  datatype Setup = Setup(
    tick: real,
    lot: real,
    depthThreshold: real,
    aheadMultiplier: real,
    tradeFraction: real,
    depthFraction: real)
  {
    function PxThreshold(): real {
      tick * 0.1
    }
  }

  predicate ValidSetup(s: Setup) {
    && s.tick > 0.0
    && 0.0 <= s.depthThreshold <= 0.1
    && 1.0 <= s.aheadMultiplier <= 100.0
    && 0.0 <= s.tradeFraction <= 1.0
    && 0.0 <= s.depthFraction <= 1.0
  }

  datatype Engine = Engine(
    book: Option<OrderBook>,
    depth: Option<OrderBook>,
    orders: map<Id, Order>,
    meta: map<Id, Meta>,
    nextId: nat,
    nextSeq: nat)

  const NewEngine := Engine(None, None, map[], map[], 1, 1)

  function LevelsOf(b: Option<OrderBook>, side: Side): seq<Level> {
    if b.None? then [] else b.value.Levels(side)
  }

  function WithLevels(b: Option<OrderBook>, side: Side, levels: seq<Level>): Option<OrderBook> {
    if b.None? then None else Some(b.value.WithLevels(side, levels))
  }

  function ApproxEq(a: real, b: real, threshold: real): bool {
    (if a >= b then a - b else b - a) <= threshold
  }

  /** Liquidity drawn from the budget by one operation, by book side. */
  datatype Drawn = Drawn(bids: seq<Level>, asks: seq<Level>) {
    function Levels(side: Side): seq<Level> {
      if side.Buy? then bids else asks
    }
  }

  const NothingDrawn := Drawn([], [])

  function DrawnFrom(side: Side, fills: seq<Level>): Drawn {
    if side.Buy? then Drawn(fills, []) else Drawn([], fills)
  }

  datatype Stepped = Stepped(engine: Engine, drawn: Drawn)

  // ---------------------------------------------------------------- priority

  datatype Entry = Entry(id: Id, price: real, arrival: nat)

  predicate BuyFirst(a: Entry, b: Entry) {
    a.price > b.price || (a.price == b.price && a.arrival <= b.arrival)
  }

  predicate SellFirst(a: Entry, b: Entry) {
    a.price < b.price || (a.price == b.price && a.arrival <= b.arrival)
  }

  function Priority(side: Side): (Entry, Entry) -> bool {
    if side.Buy? then BuyFirst else SellFirst
  }

  predicate Ranked(e: Engine, side: Side, id: Id) {
    id in e.meta && id in e.orders && e.orders[id].side == side && e.orders[id].IsLive()
  }

  /** The ranking entry of a resting order. */
  function EntryOf(e: Engine, id: Id): Entry {
    if id in e.meta && id in e.orders then Entry(id, e.orders[id].price, e.meta[id].arrival)
    else Entry(id, 0.0, 0)
  }

  ghost predicate DistinctArrivals(e: Engine) {
    forall a, b :: a in e.meta && b in e.meta && e.meta[a].arrival == e.meta[b].arrival ==> a == b
  }

  ghost predicate DistinctIds(list: seq<Entry>) {
    forall i, j :: 0 <= i < j < |list| ==> list[i].id != list[j].id
  }

  /** The list holds the entries of exactly these ids, each once. */
  ghost predicate Lists(e: Engine, list: seq<Entry>, ids: set<Id>) {
    && DistinctIds(list)
    && (forall x :: x in list ==> x.id in ids && x == EntryOf(e, x.id))
    && (forall id :: id in ids ==> EntryOf(e, id) in list)
  }

  ghost predicate ListsInOrder(e: Engine, side: Side, list: seq<Entry>, ids: set<Id>) {
    Lists(e, list, ids) && SortedBy(list, Priority(side))
  }

  ghost function RankedIds(e: Engine, side: Side): set<Id> {
    set id | id in e.meta && Ranked(e, side, id)
  }

  /** The live orders of one side, each once, best price first and then by arrival. */
  ghost predicate IsPriorityList(e: Engine, side: Side, list: seq<Entry>) {
    ListsInOrder(e, side, list, RankedIds(e, side))
  }

  lemma PriorityIsPreorder(side: Side)
    ensures Preorder(Priority(side))
  {
  }

  lemma PriorityListUnique(e: Engine, side: Side, a: seq<Entry>, b: seq<Entry>)
    requires DistinctArrivals(e) && IsPriorityList(e, side, a) && IsPriorityList(e, side, b)
    ensures a == b
  {
    forall x ensures x in a <==> x in b {
      assert x in a ==> x.id in RankedIds(e, side);
      assert x in b ==> x.id in RankedIds(e, side);
    }
    SameMembersArrange(a, b);
    forall x, y | x in a && y in a && Priority(side)(x, y) && Priority(side)(y, x) ensures x == y {
      assert x.arrival == y.arrival && x.id in e.meta && y.id in e.meta;
    }
    SortedArrangementsEqual(a, b, Priority(side));
  }

  lemma {:induction false} InsertDistinct(list: seq<Entry>, x: Entry, side: Side)
    requires DistinctIds(list)
    requires forall y :: y in list ==> y.id != x.id
    ensures DistinctIds(InsertBy(x, list, Priority(side)))
  {
    if list == [] || Priority(side)(x, list[0]) {
    } else {
      var tail := InsertBy(x, list[1..], Priority(side));
      InsertDistinct(list[1..], x, side);
      InsertByMembers(x, list[1..], Priority(side));
      forall k | 0 <= k < |tail| ensures tail[k].id != list[0].id {
        assert tail[k] in tail;
      }
    }
  }

  /** Inserting the entry of one more id. */
  lemma InsertEntry(e: Engine, side: Side, list: seq<Entry>, ids: set<Id>, id: Id)
    requires id in ids && ListsInOrder(e, side, list, ids - {id})
    ensures ListsInOrder(e, side, InsertBy(EntryOf(e, id), list, Priority(side)), ids)
  {
    PriorityIsPreorder(side);
    InsertByKeepsSorted(EntryOf(e, id), list, Priority(side));
    InsertByMembers(EntryOf(e, id), list, Priority(side));
    InsertDistinct(list, EntryOf(e, id), side);
  }

  /** The entries of a set of ids in priority order. */
  ghost function ListFor(e: Engine, side: Side, ids: set<Id>): (list: seq<Entry>)
    ensures ListsInOrder(e, side, list, ids)
  {
    if ids == {} then []
    else
      var id :| id in ids;
      var rest := ListFor(e, side, ids - {id});
      InsertEntry(e, side, rest, ids, id);
      InsertBy(EntryOf(e, id), rest, Priority(side))
  }

  ghost function PriorityList(e: Engine, side: Side): (list: seq<Entry>)
    ensures IsPriorityList(e, side, list)
  {
    ListFor(e, side, RankedIds(e, side))
  }

  function RemoveTerminal(orders: map<Id, Order>, meta: map<Id, Meta>): map<Id, Meta> {
    map id | id in meta && id in orders && orders[id].IsLive() :: meta[id]
  }

  // ---------------------------------------------------------------- historical trades

  /** A fill reported to the owner of an order. */
  datatype Exec = Exec(id: Id, qty: real, px: real, maker: bool)

  datatype Trading = Trading(orders: map<Id, Order>, meta: map<Id, Meta>, left: real, execs: seq<Exec>)

  /** A trade at the order's price eats the queue ahead of it; a trade through the price clears that queue. */
  function PassQueue(s: Setup, px: real, id: Id, price: real, t: Trading): Trading {
    if id in t.meta && t.meta[id].ahead > 0.0 then
      var m := t.meta[id];
      if ApproxEq(px, price, s.PxThreshold()) then
        var consumed := MinReal(t.left, m.ahead);
        t.(meta := t.meta[id := m.(ahead := m.ahead - consumed)], left := t.left - consumed)
      else
        t.(meta := t.meta[id := m.(ahead := 0.0)])
    else t
  }

  function FillFromTrade(id: Id, t: Trading): Trading
    requires id in t.orders
  {
    var o := t.orders[id];
    var qty := MinReal(o.open, t.left);
    if qty <= 0.0 then t
    else t.(orders := t.orders[id := o.Fill(qty)], left := t.left - qty, execs := t.execs + [Exec(id, qty, o.price, true)])
  }

  function TradeLoop(s: Setup, px: real, taker: Side, list: seq<Entry>, t: Trading): Trading
    decreases |list|
  {
    if list == [] || t.left <= 0.0 then t
    else
      var id := list[0].id;
      if id !in t.orders then TradeLoop(s, px, taker, list[1..], t)
      else if !taker.Crosses(px, t.orders[id].price) then t
      else
        var passed := PassQueue(s, px, id, t.orders[id].price, t);
        if passed.left <= 0.0 then passed
        else TradeLoop(s, px, taker, list[1..], FillFromTrade(id, passed))
  }

  /** The trade loop over the resting orders opposite the taker, with `volume` to distribute. */
  ghost function Traded(s: Setup, e: Engine, px: real, volume: real, taker: Side): Trading {
    TradeLoop(s, px, taker, PriorityList(e, taker.Reverse()), Trading(e.orders, e.meta, volume, []))
  }

  ghost function AfterTrade(s: Setup, e: Engine, px: real, volume: real, taker: Side): Engine {
    var t := Traded(s, e, px, volume, taker);
    e.(orders := t.orders, meta := RemoveTerminal(t.orders, t.meta))
  }

  /** The part of a historical trade's quantity that may consume queue and fill orders. */
  function Eligible(s: Setup, qty: real): real {
    qty * s.tradeFraction
  }

  ghost function OnTrade(s: Setup, e: Engine, px: real, qty: real, taker: Side): Engine {
    AfterTrade(s, e, px, Eligible(s, qty), taker)
  }

  // ---------------------------------------------------------------- depth snapshots

  function FindApprox(levels: seq<Level>, px: real, threshold: real): (r: Option<Level>)
    ensures r.Some? ==> r.value in levels
  {
    if levels == [] then None
    else if ApproxEq(levels[0].px, px, threshold) then Some(levels[0])
    else FindApprox(levels[1..], px, threshold)
  }

  function FoundQty(levels: seq<Level>, px: real, threshold: real): Option<real> {
    var found := FindApprox(levels, px, threshold);
    if found.None? then None else Some(found.value.qty)
  }

  /** The budget for one displayed quantity: what was left, plus the fraction of any displayed increase. */
  function CapacityOf(qty: real, before: Option<real>, left: real, fraction: real): real {
    MinReal(
      if before.None? then qty * fraction
      else if qty > before.value then left + (qty - before.value) * fraction
      else left,
      qty * fraction)
  }

  function Capacity(level: Level, previous: seq<Level>, remaining: seq<Level>, fraction: real, threshold: real): real {
    var left := FoundQty(remaining, level.px, threshold);
    CapacityOf(level.qty, FoundQty(previous, level.px, threshold), if left.None? then 0.0 else left.value, fraction)
  }

  function CapacityLevels(current: seq<Level>, previous: seq<Level>, remaining: seq<Level>, fraction: real,
                          threshold: real): seq<Level> {
    if current == [] then []
    else
      var capacity := Capacity(current[0], previous, remaining, fraction, threshold);
      (if capacity > 0.0 then [Level(current[0].px, capacity)] else [])
      + CapacityLevels(current[1..], previous, remaining, fraction, threshold)
  }

  function NextDepth(s: Setup, e: Engine, shown: OrderBook): OrderBook {
    if s.depthFraction == 1.0 then shown
    else OrderBook(
           shown.ts,
           CapacityLevels(shown.bids, LevelsOf(e.book, Buy), LevelsOf(e.depth, Buy), s.depthFraction, s.PxThreshold()),
           CapacityLevels(shown.asks, LevelsOf(e.book, Sell), LevelsOf(e.depth, Sell), s.depthFraction, s.PxThreshold()))
  }

  /** How far a displayed price must over-cross a resting order before depth fills it. */
  function MatchingLimit(s: Setup, maker: Side, price: real): real {
    if maker.Buy? then price * (1.0 - s.depthThreshold) else price * (1.0 + s.depthThreshold)
  }

  datatype Sweeping = Sweeping(
    orders: map<Id, Order>,
    meta: map<Id, Meta>,
    levels: seq<Level>,
    drawn: seq<Level>,
    execs: seq<Exec>)

  function MakerExecs(id: Id, px: real, fills: seq<Level>): seq<Exec> {
    seq(|fills|, i requires 0 <= i < |fills| => Exec(id, fills[i].qty, px, true))
  }

  function ClearQueue(meta: map<Id, Meta>, id: Id): map<Id, Meta> {
    if id in meta then meta[id := meta[id].(ahead := 0.0)] else meta
  }

  /** One resting order that the displayed book crosses: its queue clears and it draws from the budget. */
  function SweepOne(s: Setup, maker: Side, id: Id, w: Sweeping): Sweeping
    requires id in w.orders
  {
    var o := w.orders[id];
    var taken := TakeLevels(w.levels, maker, MatchingLimit(s, maker, o.price), o.open);
    Sweeping(w.orders[id := FillEach(o, taken.fills)], ClearQueue(w.meta, id), taken.rest,
             w.drawn + taken.fills, w.execs + MakerExecs(id, o.price, taken.fills))
  }

  /** `best` is the displayed best price of the side the makers trade against. */
  function SweepLoop(s: Setup, best: Option<Level>, maker: Side, list: seq<Entry>, w: Sweeping): Sweeping
    decreases |list|
  {
    if list == [] then w
    else
      var id := list[0].id;
      if id !in w.orders then SweepLoop(s, best, maker, list[1..], w)
      else if best.None? || !maker.Reverse().Crosses(best.value.px, w.orders[id].price) then w
      else SweepLoop(s, best, maker, list[1..], SweepOne(s, maker, id, w))
  }

  function BestOf(b: Option<OrderBook>, side: Side): Option<Level> {
    var levels := LevelsOf(b, side);
    if levels == [] then None else Some(levels[0])
  }

  ghost function Swept(s: Setup, e: Engine, maker: Side): Sweeping {
    SweepLoop(s, BestOf(e.book, maker.Reverse()), maker, PriorityList(e, maker),
              Sweeping(e.orders, e.meta, LevelsOf(e.depth, maker.Reverse()), [], []))
  }

  ghost function SweepSide(s: Setup, e: Engine, maker: Side): Stepped {
    var w := Swept(s, e, maker);
    Stepped(e.(orders := w.orders, meta := w.meta, depth := WithLevels(e.depth, maker.Reverse(), w.levels)),
            DrawnFrom(maker.Reverse(), w.drawn))
  }

  function Shown(s: Setup, e: Engine, shown: OrderBook): Engine {
    e.(book := Some(shown), depth := Some(NextDepth(s, e, shown)))
  }

  ghost function OnDepth(s: Setup, e: Engine, shown: OrderBook): Stepped {
    var sells := SweepSide(s, Shown(s, e, shown), Sell);
    var buys := SweepSide(s, sells.engine, Buy);
    Stepped(buys.engine.(meta := RemoveTerminal(buys.engine.orders, buys.engine.meta)),
            Drawn(sells.drawn.bids, buys.drawn.asks))
  }

  // ---------------------------------------------------------------- order entry

  function RoundDownToLot(qty: real, lot: real): real {
    var rounded := if lot <= 0.0 then qty else (qty / lot).Floor as real * lot;
    if rounded > 0.0 then rounded else 0.0
  }

  function Prepare(s: Setup, e: Engine, side: Side, price: real, qty: real, tif: Tif): Engine {
    var rounded := RoundDownToLot(qty, s.lot);
    e.(orders := e.orders[e.nextId := Order(side, price, rounded, tif, PendingNew, rounded, 0.0)],
       nextId := e.nextId + 1)
  }

  /** Displayed quantity at the order's price on its own side; the search stops at the first more passive level. */
  function QtyAhead(levels: seq<Level>, side: Side, price: real, threshold: real): real {
    if levels == [] || side.IsMorePassive(levels[0].px, price) then 0.0
    else if ApproxEq(levels[0].px, price, threshold) then levels[0].qty
    else QtyAhead(levels[1..], side, price, threshold)
  }

  predicate CrossesDepth(e: Engine, side: Side, price: real) {
    var best := BestOf(e.book, side.Reverse());
    best.Some? && side.Crosses(price, best.value.px)
  }

  /** The queue assumed ahead of an order that starts to rest. */
  function AssumedQueue(s: Setup, e: Engine, o: Order): real {
    QtyAhead(LevelsOf(e.book, o.side), o.side, o.price, s.PxThreshold()) * s.aheadMultiplier
  }

  function Rest(e: Engine, id: Id, m: Meta): Engine
    requires id in e.orders
  {
    e.(orders := e.orders[id := e.orders[id].MarkLive()], meta := e.meta[id := m])
  }

  function SetOrder(e: Engine, id: Id, o: Order): Engine {
    e.(orders := e.orders[id := o])
  }

  /** A crossing order takes from the budget at its own limit. */
  function MatchTaker(e: Engine, id: Id): Stepped
    requires id in e.orders
  {
    var o := e.orders[id];
    var taken := TakeLevels(LevelsOf(e.depth, o.side.Reverse()), o.side, o.price, o.open);
    Stepped(e.(orders := e.orders[id := FillEach(o, taken.fills)],
               depth := WithLevels(e.depth, o.side.Reverse(), taken.rest)),
            DrawnFrom(o.side.Reverse(), taken.fills))
  }

  /** The executions of a taker: what it drew, at the prices it drew it. */
  function TakerExecs(id: Id, drawn: Drawn): seq<Exec> {
    var fills := drawn.bids + drawn.asks;
    seq(|fills|, i requires 0 <= i < |fills| => Exec(id, fills[i].qty, fills[i].px, false))
  }

  function Purged(e: Engine): Engine {
    e.(meta := RemoveTerminal(e.orders, e.meta))
  }

  /** A crossing order takes what it can; the remainder is cancelled if immediate-or-cancel, else rests. */
  function TakeThenSettle(e: Engine, id: Id, m: Meta): Stepped
    requires id in e.orders
  {
    var matched := MatchTaker(e, id);
    var left := matched.engine.orders[id];
    Stepped(if left.open > 0.0 && left.tif.Ioc? then SetOrder(matched.engine, id, left.Cancel())
            else if left.open > 0.0 then Rest(matched.engine, id, m)
            else matched.engine,
            matched.drawn)
  }

  /** A pending order against the current books; `m` ranks it if it comes to rest. */
  function Enter(e: Engine, id: Id, m: Meta): Stepped
    requires id in e.orders
  {
    var o := e.orders[id];
    var crosses := CrossesDepth(e, o.side, o.price);
    if o.qty <= 0.0 || o.price <= 0.0 then Stepped(SetOrder(e, id, o.Reject()), NothingDrawn)
    else if e.book.None? then
      Stepped(if o.tif.Ioc? then SetOrder(e, id, o.Cancel()) else Rest(e, id, m), NothingDrawn)
    else if (o.tif.PostOnly? && crosses) || (o.tif.Ioc? && !crosses) then Stepped(SetOrder(e, id, o.Cancel()), NothingDrawn)
    else if !crosses then Stepped(Rest(e, id, m), NothingDrawn)
    else TakeThenSettle(e, id, m)
  }

  function ActivateBehind(e: Engine, id: Id, ahead: real): Stepped
    requires id in e.orders && e.orders[id].status == PendingNew
  {
    var entered := Enter(e.(nextSeq := e.nextSeq + 1), id, Meta(e.nextSeq, ahead));
    Stepped(Purged(entered.engine), entered.drawn)
  }

  function Activate(s: Setup, e: Engine, id: Id): Stepped {
    if id !in e.orders || e.orders[id].status != PendingNew then Stepped(e, NothingDrawn)
    else ActivateBehind(e, id, AssumedQueue(s, e, e.orders[id]))
  }

  function CancelOrder(e: Engine, id: Id): Engine {
    if id !in e.orders then e
    else e.(orders := e.orders[id := e.orders[id].Cancel()], meta := e.meta - {id})
  }
}
