/** The matching engine as an object: each operation updates the fields in place and refines the step functions. */
module MatchingEngine {
  import opened Common
  import opened Sorting
  import opened Book
  import opened Matching
  import opened MatchingRuns

  // ---------------------------------------------------------------- unfolding the trade loop

  /** One visit of the trade loop: the state after the visit and whether the loop goes on. */
  function Visit(s: Setup, px: real, taker: Side, id: Id, t: Trading): (Trading, bool) {
    if id !in t.orders then (t, true)
    else if !taker.Crosses(px, t.orders[id].price) then (t, false)
    else
      var passed := PassQueue(s, px, id, t.orders[id].price, t);
      if passed.left <= 0.0 then (passed, false) else (FillFromTrade(id, passed), true)
  }

  lemma VisitUnfolds(s: Setup, px: real, taker: Side, list: seq<Entry>, t: Trading)
    requires list != [] && t.left > 0.0
    ensures var v := Visit(s, px, taker, list[0].id, t);
            TradeLoop(s, px, taker, list, t) == if v.1 then TradeLoop(s, px, taker, list[1..], v.0) else v.0
  {
  }

  lemma SweepUnfolds(s: Setup, best: Option<Level>, maker: Side, list: seq<Entry>, w: Sweeping)
    requires list != []
    ensures var id := list[0].id;
            SweepLoop(s, best, maker, list, w)
            == if id !in w.orders then SweepLoop(s, best, maker, list[1..], w)
               else if best.None? || !maker.Reverse().Crosses(best.value.px, w.orders[id].price) then w
               else SweepLoop(s, best, maker, list[1..], SweepOne(s, maker, id, w))
  {
  }

  lemma SweepEnds(s: Setup, best: Option<Level>, maker: Side)
    ensures forall w :: SweepLoop(s, best, maker, [], w) == w
  {
  }

  class Simulator {
    const setup: Setup
    var book: Option<OrderBook>
    var depth: Option<OrderBook>
    var orders: map<Id, Order>
    var meta: map<Id, Meta>
    var nextId: nat
    var nextSeq: nat

    ghost function State(): Engine
      reads this
    {
      Engine(book, depth, orders, meta, nextId, nextSeq)
    }

    constructor (setup: Setup)
      ensures this.setup == setup && State() == NewEngine
    {
      this.setup := setup;
      book, depth, orders, meta, nextId, nextSeq := None, None, map[], map[], 1, 1;
    }

    method PrepareSubmit(side: Side, price: real, qty: real, tif: Tif) returns (id: Id)
      modifies this
      ensures id == old(nextId)
      ensures State() == Prepare(setup, old(State()), side, price, qty, tif)
    {
      id := nextId;
      nextId := nextId + 1;
      var rounded := RoundDownToLot(qty, setup.lot);
      orders := orders[id := Order(side, price, rounded, tif, PendingNew, rounded, 0.0)];
    }

    method CancelAt(id: Id)
      modifies this
      ensures State() == CancelOrder(old(State()), id)
    {
      if id in orders {
        meta := meta - {id};
        orders := orders[id := orders[id].Cancel()];
      }
    }

    method PriorityOrderIds(side: Side) returns (list: seq<Entry>)
      requires DistinctArrivals(State())
      ensures list == PriorityList(State(), side)
    {
      list := [];
      var rest, ranked := meta.Keys, {};
      while rest != {}
        invariant rest + ranked <= meta.Keys
        invariant ListsInOrder(State(), side, list, ranked)
        invariant forall id :: id in ranked ==> Ranked(State(), side, id)
        invariant forall id :: id in meta && id !in rest && Ranked(State(), side, id) ==> id in ranked
        invariant rest !! ranked
        decreases rest
      {
        var id :| id in rest;
        rest := rest - {id};
        if id in orders && orders[id].side == side && orders[id].IsLive() {
          assert (ranked + {id}) - {id} == ranked;
          InsertEntry(State(), side, list, ranked + {id}, id);
          list := InsertBy(Entry(id, orders[id].price, meta[id].arrival), list, Priority(side));
          ranked := ranked + {id};
        }
      }
      assert ranked == RankedIds(State(), side);
      PriorityListUnique(State(), side, list, PriorityList(State(), side));
    }

    method OnTradeAt(px: real, qty: real, taker: Side) returns (execs: seq<Exec>)
      requires Inv(State())
      modifies this
      ensures State() == OnTrade(setup, old(State()), px, qty, taker) && Inv(State())
      ensures execs == Traded(setup, old(State()), px, Eligible(setup, qty), taker).execs
    {
      hide Eligible;
      TradeKeepsInv(setup, State(), px, Eligible(setup, qty), taker);
      var list := PriorityOrderIds(taker.Reverse());
      execs := TradeThrough(px, Eligible(setup, qty), taker, list);
      meta := RemoveTerminal(orders, meta);
    }

    method TradeThrough(px: real, volume: real, taker: Side, list: seq<Entry>) returns (execs: seq<Exec>)
      modifies this`orders, this`meta
      ensures exists left ::
        Trading(orders, meta, left, execs) == TradeLoop(setup, px, taker, list, Trading(old(orders), old(meta), volume, []))
    {
      hide Visit;
      var left, i := volume, 0;
      execs := [];
      ghost var goal := TradeLoop(setup, px, taker, list, Trading(orders, meta, volume, []));
      assert list[0..] == list;
      while i < |list| && left > 0.0
        invariant 0 <= i <= |list|
        invariant goal == TradeLoop(setup, px, taker, list[i..], Trading(orders, meta, left, execs))
      {
        VisitUnfolds(setup, px, taker, list[i..], Trading(orders, meta, left, execs));
        assert list[i..][1..] == list[i + 1..];
        var more;
        left, execs, more := VisitOrder(px, taker, list[i].id, left, execs);
        i := i + 1;
        if !more {
          break;
        }
      }
      assert goal == Trading(orders, meta, left, execs);
    }

    /** One resting order in the trade's way: its queue first, then its fill; `more` is false once the trade is spent. */
    method VisitOrder(px: real, taker: Side, id: Id, before: real, done: seq<Exec>)
      returns (left: real, execs: seq<Exec>, more: bool)
      requires before > 0.0
      modifies this`orders, this`meta
      ensures (Trading(orders, meta, left, execs), more)
              == Visit(setup, px, taker, id, Trading(old(orders), old(meta), before, done))
    {
      hide ApproxEq, Order.Fill, Setup.PxThreshold, Side.Crosses;
      left, execs, more := before, done, true;
      if id !in orders {
        return;
      }
      var price, open := orders[id].price, orders[id].open;
      if !taker.Crosses(px, price) {
        more := false;
        return;
      }
      if id in meta && meta[id].ahead > 0.0 {
        if ApproxEq(px, price, setup.PxThreshold()) {
          var consumed := MinReal(left, meta[id].ahead);
          meta := meta[id := meta[id].(ahead := meta[id].ahead - consumed)];
          left := left - consumed;
          if left <= 0.0 {
            more := false;
            return;
          }
        } else {
          meta := meta[id := meta[id].(ahead := 0.0)];
        }
      }
      var fill := MinReal(open, left);
      if fill <= 0.0 {
        return;
      }
      left := left - fill;
      orders := orders[id := orders[id].Fill(fill)];
      execs := execs + [Exec(id, fill, price, true)];
    }

    /** Matches the resting orders of one side against the budget, leaving at the first that is not crossed. */
    method MatchLiveSide(maker: Side) returns (execs: seq<Exec>, ghost drawn: seq<Level>)
      requires DistinctArrivals(State())
      modifies this`orders, this`meta, this`depth
      ensures State() == SweepSide(setup, old(State()), maker).engine
      ensures Swept(setup, old(State()), maker).execs == execs && Swept(setup, old(State()), maker).drawn == drawn
    {
      hide SweepOne, SweepLoop, PriorityList;
      var market := maker.Reverse();
      var list := PriorityOrderIds(maker);
      var best := BestOf(book, market);
      var levels := LevelsOf(depth, market);
      execs, drawn := [], [];
      ghost var goal := SweepLoop(setup, best, maker, list, Sweeping(orders, meta, levels, [], []));
      assert list[0..] == list;
      var i := 0;
      while i < |list|
        invariant 0 <= i <= |list|
        invariant depth == old(depth)
        invariant goal == SweepLoop(setup, best, maker, list[i..], Sweeping(orders, meta, levels, drawn, execs))
      {
        var id := list[i].id;
        SweepUnfolds(setup, best, maker, list[i..], Sweeping(orders, meta, levels, drawn, execs));
        assert list[i..][0].id == id;
        assert list[i..][1..] == list[i + 1..];
        i := i + 1;
        if id !in orders {
          continue;
        }
        var price, open := orders[id].price, orders[id].open;
        if best.None? || !market.Crosses(best.value.px, price) {
          break;
        }
        execs, levels, drawn := DrawFor(maker, id, price, open, levels, execs, drawn);
      }
      SweepEnds(setup, best, maker);
      assert i == |list| ==> list[i..] == [];
      depth := WithLevels(depth, market, levels);
    }

    method DrawFor(maker: Side, id: Id, price: real, open: real, levels: seq<Level>, execs: seq<Exec>,
                   ghost drawn: seq<Level>)
      returns (execs1: seq<Exec>, rest: seq<Level>, ghost drawn1: seq<Level>)
      requires id in orders && orders[id].price == price && orders[id].open == open
      modifies this`orders, this`meta
      ensures Sweeping(orders, meta, rest, drawn1, execs1)
              == SweepOne(setup, maker, id, old(Sweeping(orders, meta, levels, drawn, execs)))
    {
      hide MatchingLimit, FillEach, MakerExecs, TakeLevels;
      if id in meta {
        meta := meta[id := meta[id].(ahead := 0.0)];
      }
      var fills, left := TakeFromLevels(levels, maker, MatchingLimit(setup, maker, price), open);
      var filled := ApplyFills(orders[id], fills);
      orders := orders[id := filled];
      rest := left;
      execs1 := execs + MakerExecs(id, price, fills);
      drawn1 := drawn + fills;
    }

    method ApplyFills(o: Order, fills: seq<Level>) returns (filled: Order)
      ensures filled == FillEach(o, fills)
    {
      filled := o;
      assert fills[0..] == fills;
      for k := 0 to |fills|
        invariant FillEach(o, fills) == FillEach(filled, fills[k..])
      {
        assert fills[k..][1..] == fills[k + 1..];
        filled := filled.Fill(fills[k].qty);
      }
    }

    method OnDepthAt(shown: OrderBook) returns (execs: seq<Exec>)
      requires Inv(State())
      modifies this
      ensures State() == OnDepth(setup, old(State()), shown).engine && Inv(State())
      ensures var e0 := Shown(setup, old(State()), shown);
              execs == Swept(setup, e0, Sell).execs + Swept(setup, SweepSide(setup, e0, Sell).engine, Buy).execs
    {
      hide NextDepth, Swept;
      ghost var e0 := Shown(setup, State(), shown);
      DepthKeepsInv(setup, State(), shown);
      ConsistentIgnoresBooks(State(), e0);
      SweepSideKeeps(setup, e0, Sell);
      var next := NextDepth(setup, Engine(book, depth, orders, meta, nextId, nextSeq), shown);
      book := Some(shown);
      depth := Some(next);
      var sells, _ := MatchLiveSide(Sell);
      var buys, _ := MatchLiveSide(Buy);
      execs := sells + buys;
      meta := RemoveTerminal(orders, meta);
    }

    /** Brings a pending order to the book: rejects, cancels, rests or matches it. */
    method ActivateAt(id: Id) returns (execs: seq<Exec>)
      modifies this
      ensures State() == Activate(setup, old(State()), id).engine
      ensures execs == TakerExecs(id, Activate(setup, old(State()), id).drawn)
    {
      hide Enter, RemoveTerminal, AssumedQueue, TakerExecs;
      execs := [];
      NoTakerExecs(id);
      if id !in orders || orders[id].status != PendingNew {
        return;
      }
      var o := orders[id];
      var rank := Meta(nextSeq, AssumedQueue(setup, Engine(book, depth, orders, meta, nextId, nextSeq), o));
      nextSeq := nextSeq + 1;
      execs := Admit(id, o, rank);
      meta := RemoveTerminal(orders, meta);
    }

    method Admit(id: Id, o: Order, rank: Meta) returns (execs: seq<Exec>)
      requires id in orders && orders[id] == o
      modifies this`orders, this`meta, this`depth
      ensures State() == Enter(old(State()), id, rank).engine
      ensures execs == TakerExecs(id, Enter(old(State()), id, rank).drawn)
    {
      execs := [];
      if o.qty <= 0.0 || o.price <= 0.0 {
        orders := orders[id := o.Reject()];
        return;
      }
      if book.None? {
        if o.tif == Ioc {
          orders := orders[id := o.Cancel()];
        } else {
          meta := meta[id := rank];
          orders := orders[id := o.MarkLive()];
        }
        return;
      }
      var best := BestOf(book, o.side.Reverse());
      var crosses := best.Some? && o.side.Crosses(o.price, best.value.px);
      if o.tif == PostOnly && crosses {
        orders := orders[id := o.Cancel()];
        return;
      }
      if o.tif == Ioc && !crosses {
        orders := orders[id := o.Cancel()];
        return;
      }
      if !crosses {
        meta := meta[id := rank];
        orders := orders[id := o.MarkLive()];
        return;
      }
      execs := MatchTakerOrder(id, o);
      var left := orders[id];
      if left.open > 0.0 && o.tif == Ioc {
        orders := orders[id := left.Cancel()];
      } else if left.open > 0.0 {
        meta := meta[id := rank];
        orders := orders[id := left.MarkLive()];
      }
    }

    method MatchTakerOrder(id: Id, o: Order) returns (execs: seq<Exec>)
      requires id in orders && orders[id] == o
      modifies this`orders, this`depth
      ensures State() == MatchTaker(old(State()), id).engine
      ensures execs == TakerExecs(id, MatchTaker(old(State()), id).drawn)
      ensures orders[id].tif == o.tif
    {
      var fills, rest := TakeFromLevels(LevelsOf(depth, o.side.Reverse()), o.side, o.price, o.open);
      var filled := ApplyFills(o, fills);
      FillsKeepTerms(o, fills);
      orders := orders[id := filled];
      depth := WithLevels(depth, o.side.Reverse(), rest);
      execs := TakerExecs(id, DrawnFrom(o.side.Reverse(), fills));
    }
  }

  lemma NoTakerExecs(id: Id)
    ensures TakerExecs(id, NothingDrawn) == []
  {
  }

  lemma {:induction false} FillsKeepTerms(o: Order, fills: seq<Level>)
    ensures FillEach(o, fills).tif == o.tif
    decreases |fills|
  {
    if fills != [] {
      FillsKeepTerms(o.Fill(fills[0].qty), fills[1..]);
    }
  }
}
