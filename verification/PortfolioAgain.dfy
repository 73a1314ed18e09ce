/** Exactly when a reopened account settles again, and when that gives back the same snapshot. */
module PortfolioAgain {
  import opened Common
  import opened Sums
  import opened Keys
  import opened Portfolio
  import opened PortfolioAttribution
  import opened PortfolioSettle
  import opened PortfolioReopen

  // ---------------------------------------------------------------- valuing a reopened account

  /** A nonzero total needs its currency's rate, or for spot inventory its instrument's mark and accounting rate. */
  predicate Priceable(insts: Instruments, rates: Rates, marks: Marks, b: Balance) {
    b.total != 0.0 ==>
      if b.valuation.None? then RateChecked(b.currency, rates).Some?
      else
        && b.valuation.value in insts && ValidMark(marks, b.valuation.value).Some?
        && RateChecked(AccountingCurrency(insts[b.valuation.value]), rates).Some?
  }

  predicate AllPriceable(insts: Instruments, rates: Rates, marks: Marks, balances: seq<Balance>) {
    forall k :: 0 <= k < |balances| ==> Priceable(insts, rates, marks, balances[k])
  }

  lemma NewCash(rates: Rates, cash: map<Currency, real>, c: Currency, x: real)
    requires c !in cash
    ensures CashRated(rates, AddTo(cash, c, x))
            <==> CashRated(rates, cash) && (x != 0.0 ==> RateChecked(c, rates).Some?)
  {
    hide RateChecked;
    var now := AddTo(cash, c, x);
    assert c in now && now[c] == x;
    assert forall d :: d in cash ==> d in now && now[d] == cash[d];
  }

  /** A new entry leaves the other symbols' entries as valuable as they were. */
  lemma NewPosition(insts: Instruments, rates: Rates, l: Ledger, now: Ledger, marks: Marks, s: Symbol)
    requires DiffersAt(l, now, s) && s !in l.positions
    ensures HeldValuable(insts, rates, now, marks)
            <==> HeldValuable(insts, rates, l, marks) && PositionValuable(insts, rates, now, marks, s)
  {
    assert forall j :: j in now.positions <==> j == s || j in l.positions;
    forall j | j in l.positions
      ensures PositionValuable(insts, rates, now, marks, j) == PositionValuable(insts, rates, l, marks, j)
    {
      hide RateChecked, ValidMark, AccountingCurrency;
    }
    hide PositionValuable;
  }

  lemma OpenBalanceValuable(insts: Instruments, rates: Rates, l: Ledger, b: Balance, marks: Marks)
    requires CoinsKept(l) && BalanceOk(insts, b) && (b.valuation.Some? ==> b.valuation.value !in l.positions)
    requires b.currency !in l.cash
    ensures Valuable(insts, rates, OpenBalance(l, b), marks)
            <==> Valuable(insts, rates, l, marks) && Priceable(insts, rates, marks, b)
  {
    hide RateChecked, ValidMark, AccountingCurrency, Normalize, AddTo, CashRated, HeldValuable;
    if b.valuation.None? {
      NewCash(rates, l.cash, b.currency, b.total);
      SameHeld(insts, rates, l, OpenBalance(l, b), marks);
    } else {
      NewPosition(insts, rates, l, OpenBalance(l, b), marks, b.valuation.value);
    }
  }

  lemma SameHeld(insts: Instruments, rates: Rates, l: Ledger, now: Ledger, marks: Marks)
    requires now.positions == l.positions && now.coin == l.coin
    ensures HeldValuable(insts, rates, now, marks) == HeldValuable(insts, rates, l, marks)
  {
    forall j | j in l.positions
      ensures PositionValuable(insts, rates, now, marks, j) == PositionValuable(insts, rates, l, marks, j)
    {
      hide RateChecked, ValidMark, AccountingCurrency;
    }
    hide PositionValuable;
  }

  lemma {:induction false} OpenBalancesValuable(insts: Instruments, rates: Rates, l: Ledger, balances: seq<Balance>,
                                                marks: Marks)
    requires CoinsKept(l) && BalancesOk(insts, balances) && Fresh(insts, l, balances)
    requires forall k :: 0 <= k < |balances| ==> balances[k].currency !in l.cash
    ensures Valuable(insts, rates, OpenBalances(l, balances), marks)
            <==> Valuable(insts, rates, l, marks) && AllPriceable(insts, rates, marks, balances)
    ensures CoinsKept(OpenBalances(l, balances)) && Fresh(insts, OpenBalances(l, balances), [])
    decreases |balances|
  {
    hide Valuable, AllPriceable, Priceable, Normalize;
    if balances == [] {
      NoneToPrice(insts, rates, marks);
    } else {
      OpenBalanceValuable(insts, rates, l, balances[0], marks);
      OpenBalancesValuable(insts, rates, OpenBalance(l, balances[0]), balances[1..], marks);
      PriceableHead(insts, rates, marks, balances);
    }
  }

  lemma NoneToPrice(insts: Instruments, rates: Rates, marks: Marks)
    ensures AllPriceable(insts, rates, marks, [])
  {
  }

  lemma PriceableHead(insts: Instruments, rates: Rates, marks: Marks, balances: seq<Balance>)
    requires balances != []
    ensures AllPriceable(insts, rates, marks, balances)
            <==> Priceable(insts, rates, marks, balances[0]) && AllPriceable(insts, rates, marks, balances[1..])
  {
    hide Priceable;
    assert forall k :: 1 <= k < |balances| ==> balances[k] == balances[1..][k - 1];
  }

  /** An open derivative whose mark and accounting rate are known. */
  predicate Rated(insts: Instruments, rates: Rates, p: Position) {
    p.symbol in insts && (p.qty != 0.0 ==> RateChecked(AccountingCurrency(insts[p.symbol]), rates).Some?)
  }

  /** Cash in a rated currency can change without changing whether all cash is rated. */
  lemma RatedChange(rates: Rates, cash: map<Currency, real>, a: Currency, x: real)
    requires RateChecked(a, rates).Some?
    ensures CashRated(rates, AddTo(cash, a, x)) <==> CashRated(rates, cash)
  {
    hide RateChecked;
    var now := AddTo(cash, a, x);
    assert forall c :: c != a ==> (c in now <==> c in cash) && (c in cash ==> now[c] == cash[c]);
  }

  lemma OpenPositionCash(insts: Instruments, rates: Rates, l: Ledger, p: Position)
    requires PositionOk(p) && Rated(insts, rates, p)
    ensures CashRated(rates, OpenPosition(insts, l, p).cash) <==> CashRated(rates, l.cash)
  {
    hide RateChecked, AccountingCurrency, Coins, Cost, CashRated;
    var i := insts[p.symbol];
    if p.qty != 0.0 && !i.kind.IsInverse() {
      RatedChange(rates, l.cash, AccountingCurrency(i), -Cost(i, p.qty, p.avgPrice));
    }
  }

  lemma OpenPositionValuable(insts: Instruments, rates: Rates, l: Ledger, p: Position, marks: Marks)
    requires CoinsKept(l) && PositionOk(p) && Rated(insts, rates, p) && p.symbol !in l.positions
    requires p.qty != 0.0 ==> ValidMark(marks, p.symbol).Some?
    ensures Valuable(insts, rates, OpenPosition(insts, l, p), marks) <==> Valuable(insts, rates, l, marks)
    ensures CoinsKept(OpenPosition(insts, l, p))
  {
    OpenPositionCash(insts, rates, l, p);
    hide RateChecked, ValidMark, AccountingCurrency, Coins, Cost, AddTo, CashRated, HeldValuable;
    NewPosition(insts, rates, l, OpenPosition(insts, l, p), marks, p.symbol);
  }

  lemma {:induction false} OpenPositionsValuable(insts: Instruments, rates: Rates, l: Ledger, positions: seq<Position>,
                                                 marks: Marks)
    requires CoinsKept(l) && AtMarks(insts, l, positions, marks)
    requires forall k :: 0 <= k < |positions| ==> Rated(insts, rates, positions[k])
    ensures Valuable(insts, rates, OpenPositions(insts, l, positions), marks) <==> Valuable(insts, rates, l, marks)
    decreases |positions|
  {
    hide Valuable, Rated, AccountingCurrency, Coins, Cost;
    if positions != [] {
      OpenPositionValuable(insts, rates, l, positions[0], marks);
      OpenPositionsValuable(insts, rates, OpenPosition(insts, l, positions[0]), positions[1..], marks);
    }
  }

  /** The positions of a settled snapshot are those of the account, so they are rated. */
  lemma SettledRated(insts: Instruments, rates: Rates, l: Ledger, modes: map<Symbol, Option<MarginMode>>, marks: Marks,
                     positions: seq<Position>)
    requires Valuable(insts, rates, l, marks) && AllDescribe(insts, l, modes, marks, positions)
    ensures forall k :: 0 <= k < |positions| ==> Rated(insts, rates, positions[k])
  {
    hide RateChecked, ValidMark, AccountingCurrency;
    forall k | 0 <= k < |positions| ensures Rated(insts, rates, positions[k]) {
      assert Describes(insts, l, modes, marks, positions[k]);
      if positions[k].qty != 0.0 {
        assert PositionValuable(insts, rates, l, marks, positions[k].symbol);
      }
    }
  }

  /** A reopened account can be valued exactly when every settled balance can. */
  lemma ReopenedValuable(insts: Instruments, rates: Rates, balances: seq<Balance>, positions: seq<Position>,
                         marks: Marks)
    requires BalancesOk(insts, balances) && AtMarks(insts, EMPTY, positions, marks)
    requires forall k :: 0 <= k < |positions| ==> Rated(insts, rates, positions[k])
    ensures Valuable(insts, rates, OpenPositions(insts, OpenBalances(EMPTY, balances), positions), marks)
            <==> AllPriceable(insts, rates, marks, balances)
  {
    hide AllPriceable, Rated, BalanceOk, OpenPositions, OpenBalances, PositionValuable;
    assert Valuable(insts, rates, EMPTY, marks);
    hide Valuable;
    OpenBalancesValuable(insts, rates, EMPTY, balances, marks);
    var l := OpenBalances(EMPTY, balances);
    assert AtMarks(insts, l, positions, marks);
    OpenPositionsValuable(insts, rates, l, positions, marks);
  }

  // ---------------------------------------------------------------- its worth and its notional

  lemma {:induction false} SettledWorth(insts: Instruments, rates: Rates, marks: Marks, balances: seq<Balance>)
    requires forall k :: 0 <= k < |balances| ==> balances[k].total >= 0.0
    ensures BalancesUsd(insts, rates, marks, balances) >= 0.0
  {
    hide Weight, Value;
    if balances != [] {
      WeightNotNegative(insts, rates, marks, balances[0]);
      ValueNotNegative(balances[0].total, Weight(insts, rates, marks, balances[0]));
      SettledWorth(insts, rates, marks, balances[1..]);
    }
  }

  lemma ValueNotNegative(amount: real, rate: real)
    requires amount >= 0.0 && rate >= 0.0
    ensures Value(amount, rate) >= 0.0
  {
  }

  lemma WeightNotNegative(insts: Instruments, rates: Rates, marks: Marks, b: Balance)
    ensures Weight(insts, rates, marks, b) >= 0.0
  {
    hide AccountingCurrency;
  }

  /** Two ledgers with the same derivative quantities have the same notional. */
  ghost predicate SameDerivatives(insts: Instruments, l: Ledger, m: Ledger) {
    forall s :: s in insts && !insts[s].kind.Spot? ==> Get(m.positions, s) == Get(l.positions, s)
  }

  lemma NoNotional(insts: Instruments, rates: Rates, l: Ledger, marks: Marks, s: Symbol)
    requires s !in l.positions
    ensures NotionalUsdOf(insts, rates, l, marks, s) == 0.0
  {
    if s in insts {
      assert Notional(insts[s], 0.0, Get(marks, s)) == 0.0;
    }
  }

  lemma SameNotional(insts: Instruments, rates: Rates, l: Ledger, m: Ledger, marks: Marks)
    requires SameDerivatives(insts, l, m)
    ensures SumOver(m.positions.Keys, NotionalTerms(insts, rates, m, marks))
            == SumOver(l.positions.Keys, NotionalTerms(insts, rates, l, marks))
  {
    var f, g := NotionalTerms(insts, rates, l, marks), NotionalTerms(insts, rates, m, marks);
    var all := l.positions.Keys + m.positions.Keys;
    assert forall s :: f(s) == g(s) by {
      hide Notional, Value, Abs, RateOrPar, AccountingCurrency;
    }
    hide NotionalUsdOf, SumOver;
    forall s | s in all - l.positions.Keys ensures f(s) == 0.0 {
      NoNotional(insts, rates, l, marks, s);
    }
    forall s | s in all - m.positions.Keys ensures g(s) == 0.0 {
      NoNotional(insts, rates, m, marks, s);
    }
    SumExtend(l.positions.Keys, all, f);
    SumExtend(m.positions.Keys, all, g);
    SumSame(all, f, g);
  }

  lemma ReopenedDerivatives(insts: Instruments, rates: Rates, l: Ledger, initial: Initial, marks: Marks,
                            leverage: real, cmr: real, done: Initial)
    requires SettlesTo(insts, rates, l, initial, marks, leverage, cmr, done)
    ensures PositionsOk(done.positions) && SameDerivatives(insts, l, WithInitial(insts, done))
  {
    SettledSnapshot(insts, rates, l, initial, marks, leverage, cmr, done);
    hide Settle, SettlePositions, SettleBalances, BalancesOk, OpenPositions, OpenBalances, Modes;
    var syms, modes := SortedKeys(insts.Keys), Modes(initial.positions);
    SettledPositions(insts, l, syms, modes, marks);
    forall s | s in insts && !insts[s].kind.Spot?
      ensures Get(WithInitial(insts, done).positions, s) == Get(l.positions, s)
    {
      ReopenedDecision(insts, l, modes, done, marks, s);
    }
  }

  /** The notional of a reopened account is known, and is the account's. */
  lemma ReopenedNotional(insts: Instruments, rates: Rates, l: Ledger, m: Ledger, marks: Marks)
    requires Valuable(insts, rates, l, marks) && SameDerivatives(insts, l, m)
    requires forall s :: s in m.positions ==> s in insts
    ensures NotionalChecked(insts, rates, m, marks).Some?
    ensures NotionalChecked(insts, rates, m, marks) == NotionalChecked(insts, rates, l, marks)
  {
    SameNotional(insts, rates, l, m, marks);
    hide RateChecked, ValidMark, AccountingCurrency, NotionalTerms, SumOver;
    forall s | s in l.positions ensures NotionalValuable(insts, rates, l, marks, s) {
      assert PositionValuable(insts, rates, l, marks, s);
    }
    forall s | s in m.positions ensures NotionalValuable(insts, rates, m, marks, s) {
      if s in l.positions {
        assert PositionValuable(insts, rates, l, marks, s);
      }
    }
  }

  // ---------------------------------------------------------------- settling again

  /** What `Settle` decided about an account it settled. */
  lemma SettleDecided(insts: Instruments, rates: Rates, l: Ledger, initial: Initial, marks: Marks, leverage: real,
                      cmr: real, done: Initial)
    requires Settle(insts, rates, l, initial, marks, leverage, cmr) == Settled(done)
    ensures Valuable(insts, rates, l, marks) && NotionalChecked(insts, rates, l, marks).Some?
    ensures done.account == initial.account
    ensures done.margin
            == MarginFor(EquityUsd(insts, rates, l, marks), NotionalChecked(insts, rates, l, marks).value, leverage, cmr)
  {
    hide Valuable, EquityUsd, SettleBalances, SettlePositions, Modes, MarginFor, NotionalChecked;
  }

  lemma ReopenedKnown(insts: Instruments, done: Initial, marks: Marks)
    requires BalancesOk(insts, done.balances) && AtMarks(insts, EMPTY, done.positions, marks)
    ensures PositionsOk(done.positions)
    ensures forall s :: s in WithInitial(insts, done).positions ==> s in insts
  {
    hide EquityValue, BalanceOk, OpenPositions, OpenBalances;
    OpenBalancesCount(insts, EMPTY, done.balances, "", marks);
    var l := OpenBalances(EMPTY, done.balances);
    assert Opened(insts, l, marks);
    assert AtMarks(insts, l, done.positions, marks);
    OpenPositionsCount(insts, l, done.positions, "", marks);
  }

  /** The parts `Settle` composes: it settles when all of them do. */
  lemma SettleComposes(insts: Instruments, rates: Rates, l: Ledger, initial: Initial, marks: Marks, leverage: real,
                       cmr: real)
    requires EquityUsd(insts, rates, l, marks) >= 0.0 && NotionalChecked(insts, rates, l, marks).Some?
    requires SettleBalances(insts, l, initial.balances, marks) == Settled(initial.balances)
    requires SettlePositions(insts, l, SortedKeys(insts.Keys), Modes(initial.positions), marks) == Settled(initial.positions)
    ensures Settle(insts, rates, l, initial, marks, leverage, cmr)
            == if !Valuable(insts, rates, l, marks) then Refused(EquityUnvalued)
               else Settled(initial.(margin := MarginFor(EquityUsd(insts, rates, l, marks),
                                                         NotionalChecked(insts, rates, l, marks).value, leverage, cmr)))
  {
    hide Valuable, EquityUsd, SettleBalances, SettlePositions, Modes, MarginFor, NotionalChecked;
  }

  /** The reopened account: valued exactly when every balance is, never negative, with the account's notional. */
  lemma ReopenedAccount(insts: Instruments, rates: Rates, l: Ledger, initial: Initial, marks: Marks, leverage: real,
                        cmr: real, done: Initial)
    requires SettlesTo(insts, rates, l, initial, marks, leverage, cmr, done)
    ensures PositionsOk(done.positions)
    ensures var re := WithInitial(insts, done);
            && (Valuable(insts, rates, re, marks) <==> AllPriceable(insts, rates, marks, done.balances))
            && EquityUsd(insts, rates, re, marks) >= 0.0
            && NotionalChecked(insts, rates, re, marks).Some?
            && NotionalChecked(insts, rates, re, marks) == NotionalChecked(insts, rates, l, marks)
  {
    SettleDecided(insts, rates, l, initial, marks, leverage, cmr, done);
    SettledSnapshot(insts, rates, l, initial, marks, leverage, cmr, done);
    ReopenedDerivatives(insts, rates, l, initial, marks, leverage, cmr, done);
    hide Settle, SettlesTo, Valuable, EquityUsd, SettleBalances, SettlePositions, Modes, NotionalChecked, AllPriceable,
         OpenPositions, OpenBalances, BalancesOk, SameDerivatives, Rated, BalancesUsd, AllDescribe, AtMarks, MarginFor;
    SettledTotals(insts, l, initial.balances, marks);
    SettledWorth(insts, rates, marks, done.balances);
    ReopenedUsd(insts, rates, done.balances, done.positions, marks);
    SettledRated(insts, rates, l, Modes(initial.positions), marks, done.positions);
    ReopenedValuable(insts, rates, done.balances, done.positions, marks);
    ReopenedKnown(insts, done, marks);
    ReopenedNotional(insts, rates, l, WithInitial(insts, done), marks);
  }

  /**
   A reopened account settles again exactly when every balance with a nonzero total can be priced; otherwise its equity
   is refused as unvalued. Then account, balances, positions and notional are the same, and the whole snapshot is
   exactly when reopening kept USD equity.
   */
  lemma SettleAgain(insts: Instruments, rates: Rates, l: Ledger, initial: Initial, marks: Marks, leverage: real,
                    cmr: real, done: Initial)
    requires SettlesTo(insts, rates, l, initial, marks, leverage, cmr, done)
    ensures PositionsOk(done.positions)
    ensures var re := WithInitial(insts, done);
            var again := Settle(insts, rates, re, done, marks, leverage, cmr);
            && (again.Settled? <==> AllPriceable(insts, rates, marks, done.balances))
            && (again.Refused? ==> again == Refused(EquityUnvalued))
            && (again.Settled? ==>
                  && again.value.(margin := done.margin) == done
                  && again.value.margin.notional == done.margin.notional
                  && again.value.margin.adjustedEquity == Some(EquityUsd(insts, rates, re, marks)))
            && (again == Settled(done) <==>
                  && AllPriceable(insts, rates, marks, done.balances)
                  && EquityUsd(insts, rates, re, marks) == EquityUsd(insts, rates, l, marks))
  {
    SettleDecided(insts, rates, l, initial, marks, leverage, cmr, done);
    SettleTwice(insts, rates, l, initial, marks, leverage, cmr, done);
    ReopenedAccount(insts, rates, l, initial, marks, leverage, cmr, done);
    hide Settle, SettlesTo, Valuable, EquityUsd, SettleBalances, SettlePositions, Modes, NotionalChecked, AllPriceable,
         WithInitial, PositionsOk;
    SettleComposes(insts, rates, WithInitial(insts, done), done, marks, leverage, cmr);
  }

  /** So settling is idempotent exactly when every balance can be priced and the gaps of reopening cancel. */
  lemma SettleIdempotent(insts: Instruments, rates: Rates, l: Ledger, initial: Initial, marks: Marks, leverage: real,
                         cmr: real, done: Initial)
    requires SettlesTo(insts, rates, l, initial, marks, leverage, cmr, done)
    ensures PositionsOk(done.positions)
    ensures Settle(insts, rates, WithInitial(insts, done), done, marks, leverage, cmr) == Settled(done)
            <==> AllPriceable(insts, rates, marks, done.balances)
                 && TotalGap(insts, rates, l, marks, initial.balances) == 0.0
  {
    hide *;
    SettleAgain(insts, rates, l, initial, marks, leverage, cmr, done);
    ReopenGap(insts, rates, l, initial, marks, leverage, cmr, done);
  }

  /** Coins held in an inverse instrument quoted in USD need no rate of their own, until they are reopened as cash. */
  lemma CoinRefusedExample() returns (done: Initial)
    ensures SettlesTo(COIN_INSTS, map[], COIN_LEDGER, COIN_LISTING, COIN_MARKS, 1.0, 1.0, done)
    ensures PositionsOk(done.positions)
    ensures Settle(COIN_INSTS, map[], WithInitial(COIN_INSTS, done), done, COIN_MARKS, 1.0, 1.0) == Refused(EquityUnvalued)
  {
    done := CoinSettles(map[]);
    hide Settle, SettlesTo;
    assert !Priceable(COIN_INSTS, map[], COIN_MARKS, done.balances[0]);
    SettleAgain(COIN_INSTS, map[], COIN_LEDGER, COIN_LISTING, COIN_MARKS, 1.0, 1.0, done);
  }
}
