/** The portfolio as the object it is: maps and totals updated in place, and valuations accumulated in loops. */
module PortfolioBook {
  import opened Common
  import opened Sums
  import opened Keys
  import opened Portfolio
  import opened PortfolioAttribution
  import opened PortfolioBasis
  import opened PortfolioSettle

  lemma EquityRefused(insts: Instruments, l: Ledger, c: Currency, marks: Marks, s: Symbol)
    requires s in l.positions && !ValuedIn(insts, l, c, marks, s)
    ensures AccountEquity(insts, l, c, marks).None?
  {
  }

  lemma EquitySummed(insts: Instruments, l: Ledger, c: Currency, marks: Marks)
    requires forall s :: s in l.positions ==> ValuedIn(insts, l, c, marks, s)
    ensures AccountEquity(insts, l, c, marks) == Some(EquityValue(insts, l, c, marks))
  {
    hide ValuedIn, EquityValue;
  }

  lemma NotionalRefused(insts: Instruments, rates: Rates, l: Ledger, marks: Marks, s: Symbol)
    requires s in l.positions && !NotionalValuable(insts, rates, l, marks, s)
    ensures NotionalChecked(insts, rates, l, marks).None?
  {
  }

  lemma NotionalSummed(insts: Instruments, rates: Rates, l: Ledger, marks: Marks)
    requires forall s :: s in l.positions ==> NotionalValuable(insts, rates, l, marks, s)
    ensures NotionalChecked(insts, rates, l, marks) == Some(SumOver(l.positions.Keys, NotionalTerms(insts, rates, l, marks)))
  {
    hide NotionalValuable, SumOver;
  }

  lemma CashRefused(insts: Instruments, rates: Rates, l: Ledger, marks: Marks)
    requires !CashRated(rates, l.cash)
    ensures EquityChecked(insts, rates, l, marks).None?
  {
  }

  lemma PositionRefused(insts: Instruments, rates: Rates, l: Ledger, marks: Marks, s: Symbol)
    requires s in l.positions && !PositionValuable(insts, rates, l, marks, s)
    ensures EquityChecked(insts, rates, l, marks).None?
  {
  }

  lemma EquityValued(insts: Instruments, rates: Rates, l: Ledger, marks: Marks)
    requires CashRated(rates, l.cash) && forall s :: s in l.positions ==> PositionValuable(insts, rates, l, marks, s)
    ensures EquityChecked(insts, rates, l, marks) == Some(EquityUsd(insts, rates, l, marks))
  {
    hide PositionValuable, EquityUsd;
  }

  class PortfolioState {
    const insts: Instruments
    var positions: map<Symbol, real>
    var avg: map<Symbol, real>
    var coin: map<Symbol, real>
    var cash: map<Currency, real>
    var totals: Totals

    ghost function State(): Ledger
      reads this
    {
      Ledger(positions, avg, coin, cash, totals)
    }

    constructor (insts: Instruments)
      ensures this.insts == insts && State() == EMPTY
    {
      this.insts := insts;
      positions, avg, coin, cash := map[], map[], map[], map[];
      totals := Totals(0.0, 0.0, 0.0, 0, 0, 0, 0);
    }

    /** Opens an account from a snapshot: balances first, then derivative positions against their cost. */
    constructor Open(insts: Instruments, initial: Initial)
      requires PositionsOk(initial.positions)
      ensures this.insts == insts && State() == WithInitial(insts, initial)
    {
      this.insts := insts;
      positions, avg, coin, cash := map[], map[], map[], map[];
      totals := Totals(0.0, 0.0, 0.0, 0, 0, 0, 0);
      new;
      ghost var goal := OpenBalances(State(), initial.balances);
      assert initial.balances[0..] == initial.balances;
      for k := 0 to |initial.balances|
        invariant goal == OpenBalances(State(), initial.balances[k..])
      {
        assert initial.balances[k..][1..] == initial.balances[k + 1..];
        var b := initial.balances[k];
        if b.valuation.Some? {
          positions := positions[b.valuation.value := b.total];
          avg := avg[b.valuation.value := 0.0];
        } else {
          cash := AddTo(cash, b.currency, b.total);
        }
      }
      goal := OpenPositions(insts, State(), initial.positions);
      assert initial.positions[0..] == initial.positions;
      for k := 0 to |initial.positions|
        invariant goal == OpenPositions(insts, State(), initial.positions[k..])
      {
        assert initial.positions[k..][1..] == initial.positions[k + 1..];
        assert PositionOk(initial.positions[k]);
        PlacePosition(initial.positions[k]);
      }
    }

    method PlacePosition(p: Position)
      requires PositionOk(p)
      modifies this
      ensures State() == OpenPosition(insts, old(State()), p)
    {
      if p.symbol !in insts {
        return;
      }
      var i := insts[p.symbol];
      positions := positions[p.symbol := p.qty];
      avg := avg[p.symbol := p.avgPrice];
      if p.qty == 0.0 {
        return;
      }
      if i.kind.IsInverse() {
        coin := coin[p.symbol := Coins(i, p.qty, p.avgPrice)];
      } else {
        cash := AddTo(cash, AccountingCurrency(i), -Cost(i, p.qty, p.avgPrice));
      }
    }

    method ApplyFillUpdate(f: Fill, rates: Rates)
      modifies this
      ensures State() == ApplyFill(insts, rates, old(State()), f)
    {
      if f.qty <= 0.0 {
        return;
      }
      if !Accepted(insts, f) {
        totals := totals.(invalidEvents := Saturate(totals.invalidEvents));
        return;
      }
      hide Blank, Positioned, Paid, Charged, Tallied;
      var i := insts[f.symbol];
      BookTrade(i, f);
      var cost, failed := BookFee(i, f, rates);
      Tally(i, f, rates, cost, failed);
    }

    method BookTrade(i: Instrument, f: Fill)
      requires f.symbol in insts && insts[f.symbol] == i && f.price > 0.0
      modifies this`positions, this`avg, this`coin, this`cash
      ensures State() == Paid(i, Positioned(i, old(State()), f), f)
    {
      hide NewAvg, Normalize, Coins, Price, AccountingCurrency, Fill.Signed;
      ApplyPositionFill(f.symbol, f.Signed(), f.price);
      if i.kind.IsInverse() {
        coin := AddTo(coin, f.symbol, Coins(i, f.Signed(), f.price));
      } else {
        cash := AddTo(cash, AccountingCurrency(i), -Price(i, f));
      }
    }

    /** Books the reported fee, or an estimate of it, and returns its USD cost and whether a rate was missing. */
    method BookFee(i: Instrument, f: Fill, rates: Rates) returns (cost: real, failed: bool)
      requires f.price > 0.0
      modifies this`positions, this`coin, this`cash
      ensures State() == Charged(i, old(State()), f)
      ensures cost == FeeCost(i, f, rates)
      ensures failed <==> ConversionFailed(i, f, rates)
    {
      hide Normalize, Value, EstimatedCost, FeeRate, AccountingCurrency, FeeRateComplete, RateChecked, RateOrPar,
           ExactFee;
      var currency := AccountingCurrency(i);
      failed := RateChecked(currency, rates).None?;
      if f.fee.Some? {
        var fee := f.fee.value;
        ApplyExactFee(i, f.symbol, fee);
        var feeRate := if fee.amount == 0.0 then 1.0 else FeeRate(i, fee.currency, f.price, rates);
        if fee.amount != 0.0 && !FeeRateComplete(i, fee.currency, rates) {
          failed := true;
        }
        cost := Value(-fee.amount, feeRate);
      } else {
        var estimated := EstimatedCost(i, f);
        if i.kind.IsInverse() {
          coin := AddTo(coin, f.symbol, -(estimated / f.price));
        } else {
          cash := AddTo(cash, currency, -estimated);
        }
        cost := Value(estimated, RateOrPar(currency, rates));
      }
    }

    method Tally(i: Instrument, f: Fill, rates: Rates, cost: real, failed: bool)
      requires cost == FeeCost(i, f, rates) && (failed <==> ConversionFailed(i, f, rates))
      modifies this`totals
      ensures totals == Tallied(i, old(totals), f, rates)
    {
      hide FeeCost, ConversionFailed, Notional, RateOrPar, AccountingCurrency, Value;
      if f.fee.Some? {
        totals := totals.(exactFees := Saturate(totals.exactFees));
      } else {
        totals := totals.(estimatedFees := Saturate(totals.estimatedFees));
      }
      totals := totals.(feeCost := totals.feeCost + cost);
      if failed {
        totals := totals.(conversionFailures := Saturate(totals.conversionFailures));
      }
      var traded := Value(Abs(Notional(i, f.qty, f.price)), RateOrPar(AccountingCurrency(i), rates));
      totals := totals.(turnover := totals.turnover + traded);
    }

    method ApplyPositionFill(symbol: Symbol, signed: real, price: real)
      requires price > 0.0 && symbol in insts
      modifies this`positions, this`avg
      ensures var (q, a) := (Get(old(positions), symbol), Get(old(avg), symbol));
              && positions == old(positions)[symbol := q + signed]
              && avg == old(avg)[symbol := NewAvg(insts[symbol].kind.IsInverse(), q, a, signed, price)]
    {
      var inverse := insts[symbol].kind.IsInverse();
      var oldQty, oldAvg := Get(positions, symbol), Get(avg, symbol);
      var newQty := oldQty + signed;
      var newAvg: real;
      if Abs(newQty) <= EPSILON {
        newAvg := 0.0;
      } else if oldQty == 0.0 || (oldQty > 0.0) == (signed > 0.0) {
        if inverse && oldQty != 0.0 {
          newAvg := Harmonic(oldQty, oldAvg, signed, price);
        } else {
          newAvg := Arithmetic(oldQty, oldAvg, signed, price);
        }
      } else if Abs(signed) < Abs(oldQty) {
        newAvg := oldAvg;
      } else {
        newAvg := price;
      }
      positions := positions[symbol := newQty];
      avg := avg[symbol := newAvg];
    }

    method ApplyExactFee(i: Instrument, symbol: Symbol, fee: Fee)
      modifies this`positions, this`coin, this`cash
      ensures State() == ExactFee(i, old(State()), symbol, fee)
    {
      var c := Normalize(fee.currency);
      if i.kind.Spot? && !Blank(i.base) && c == Normalize(i.base) {
        positions := AddTo(positions, symbol, fee.amount);
      } else if i.kind.IsInverse() && ((!Blank(i.settle) && c == Normalize(i.settle))
                                       || (!Blank(i.base) && c == Normalize(i.base))) {
        coin := AddTo(coin, symbol, fee.amount);
      } else {
        cash := AddTo(cash, c, fee.amount);
      }
    }

    method ApplyFundingPayment(symbol: Symbol, rate: real, mark: real, rates: Rates) returns (pnl: Option<real>)
      modifies this
      ensures State() == ApplyFunding(insts, rates, old(State()), symbol, rate, mark)
      ensures pnl == FundingPnl(insts, rates, old(State()), symbol, rate, mark)
    {
      hide Normalize, Value, FundingCost, FundingCoins, AccountingCurrency;
      if symbol !in insts || !insts[symbol].kind.IsSwap() {
        return None;
      }
      var i, q := insts[symbol], Get(positions, symbol);
      if q == 0.0 {
        return Some(0.0);
      }
      if mark <= 0.0 {
        return None;
      }
      var currency := AccountingCurrency(i);
      var cost: real;
      if i.kind.IsInverse() {
        coin := AddTo(coin, symbol, -FundingCoins(i, q, rate, mark));
        cost := FundingCost(i, q, rate, mark);
      } else {
        cost := FundingCost(i, q, rate, mark);
        cash := AddTo(cash, currency, -cost);
      }
      if RateChecked(currency, rates).None? {
        totals := totals.(conversionFailures := Saturate(totals.conversionFailures));
      }
      var gained := Value(-cost, RateOrPar(currency, rates));
      totals := totals.(fundingPnl := totals.fundingPnl + gained);
      return Some(gained);
    }

    // -------------------------------------------------------------- valuation loops

    /** Every cash entry at its checked rate; none if a nonzero entry has no rate. */
    method CashUsdChecked(rates: Rates) returns (r: Option<real>)
      ensures r.Some? <==> forall c :: c in cash && cash[c] != 0.0 ==> RateChecked(c, rates).Some?
      ensures r.Some? ==> r.value == CashUsd(rates, cash)
    {
      hide RateChecked, Value, SumOver;
      var total, left := 0.0, cash.Keys;
      while left != {}
        invariant left <= cash.Keys
        invariant total + SumOver(left, CashTerms(rates, cash)) == CashUsd(rates, cash)
        invariant forall c :: c in cash.Keys - left && cash[c] != 0.0 ==> RateChecked(c, rates).Some?
        decreases |left|
      {
        var c :| c in left;
        SumRemove(left, CashTerms(rates, cash), c);
        ValueAdds(0.0, 0.0, RateOrPar(c, rates));
        if cash[c] != 0.0 {
          if RateChecked(c, rates).None? {
            return None;
          }
          total := total + Value(cash[c], RateChecked(c, rates).value);
        }
        left := left - {c};
      }
      SumNone(CashTerms(rates, cash));
      return Some(total);
    }

    /** Checked USD equity: defined exactly when everything of value can be priced, and then equal to the equity. */
    method EquityUsdChecked(marks: Marks, rates: Rates) returns (r: Option<real>)
      ensures r == EquityChecked(insts, rates, State(), marks)
    {
      hide RateChecked, CashUsd, PositionUsd, PositionValuable, SumOver, EquityChecked;
      var opening := CashUsdChecked(rates);
      if opening.None? {
        CashRefused(insts, rates, State(), marks);
        return None;
      }
      var total, left := opening.value, positions.Keys;
      ghost var f := PositionTerms(insts, rates, State(), marks);
      while left != {}
        invariant left <= positions.Keys
        invariant total + SumOver(left, f) == EquityUsd(insts, rates, State(), marks)
        invariant forall s :: s in positions.Keys - left ==> PositionValuable(insts, rates, State(), marks, s)
        decreases |left|
      {
        var s :| s in left;
        SumRemove(left, f, s);
        var one := PositionChecked(s, marks, rates);
        if one.None? {
          PositionRefused(insts, rates, State(), marks, s);
          return None;
        }
        total := total + one.value;
        left := left - {s};
      }
      SumNone(f);
      EquityValued(insts, rates, State(), marks);
      return Some(total);
    }

    method PositionChecked(s: Symbol, marks: Marks, rates: Rates) returns (r: Option<real>)
      requires s in positions
      ensures r.Some? <==> PositionValuable(insts, rates, State(), marks, s)
      ensures r.Some? ==> r.value == PositionUsd(insts, rates, State(), marks, s)
    {
      hide Worth, Value, AccountingCurrency, RateChecked;
      if s !in insts {
        return None;
      }
      var i, q, c := insts[s], positions[s], Get(coin, s);
      if q == 0.0 && (!i.kind.IsInverse() || c == 0.0) {
        ValueAdds(0.0, 0.0, RateOrPar(AccountingCurrency(i), rates));
        if s in marks && marks[s] > 0.0 {
          WorthlessEntry(i, c, marks[s]);
        }
        return Some(0.0);
      }
      if s !in marks || marks[s] <= 0.0 {
        return None;
      }
      var rate := RateChecked(AccountingCurrency(i), rates);
      if rate.None? {
        return None;
      }
      return Some(Value(Worth(i, q, c, marks[s]), rate.value));
    }

    /** The exchange-style balance of a currency, summed over the positions that settle in it. */
    method BalanceIn(currency: Currency) returns (r: real)
      ensures r == AccountBalance(insts, State(), Normalize(currency))
    {
      hide HoldingIn, SumOver;
      var c := Normalize(currency);
      ghost var f := BalanceTerms(insts, State(), c);
      r := Get(cash, c);
      var left := positions.Keys;
      while left != {}
        invariant left <= positions.Keys
        invariant r + SumOver(left, f) == AccountBalance(insts, State(), c)
        decreases |left|
      {
        var s :| s in left;
        SumRemove(left, f, s);
        if s in insts {
          r := r + HoldingIn(insts[s], positions[s], Get(coin, s), Get(avg, s), c);
        }
        left := left - {s};
      }
      SumNone(f);
    }

    /** Native equity of a currency, if every symbol is known and every mark it needs is valid. */
    method EquityInCurrency(currency: Currency, marks: Marks) returns (r: Option<real>)
      ensures r == AccountEquity(insts, State(), Normalize(currency), marks)
    {
      hide EquityIn, ValuedIn, Normalize, Settlement, SumOver, AccountEquity;
      var c := Normalize(currency);
      ghost var f := EquityTerms(insts, State(), c, marks);
      var total, left := Get(cash, c), positions.Keys;
      while left != {}
        invariant left <= positions.Keys
        invariant total + SumOver(left, f) == EquityValue(insts, State(), c, marks)
        invariant forall s :: s in positions.Keys - left ==> ValuedIn(insts, State(), c, marks, s)
        decreases |left|
      {
        var s :| s in left;
        SumRemove(left, f, s);
        if !ValuedIn(insts, Ledger(positions, avg, coin, cash, totals), c, marks, s) {
          EquityRefused(insts, State(), c, marks, s);
          return None;
        }
        KnownWhenValued(insts, State(), c, marks, s);
        total := total + EquityIn(insts[s], positions[s], Get(coin, s), Get(marks, s), c);
        left := left - {s};
      }
      SumNone(f);
      EquitySummed(insts, State(), c, marks);
      return Some(total);
    }

    method NotionalOf(s: Symbol, marks: Marks, rates: Rates) returns (r: Option<real>)
      requires s in positions
      ensures r.Some? <==> NotionalValuable(insts, rates, State(), marks, s)
      ensures r.Some? ==> r.value == NotionalUsdOf(insts, rates, State(), marks, s)
    {
      hide RateChecked, Value, AccountingCurrency, ValidMark, Notional, Abs;
      if s !in insts {
        return None;
      }
      var i, q := insts[s], positions[s];
      ZeroNotional(i, Get(marks, s), RateOrPar(AccountingCurrency(i), rates));
      if i.kind.Spot? || q == 0.0 {
        return Some(0.0);
      }
      if !i.kind.IsInverse() && ValidMark(marks, s).None? {
        return None;
      }
      var rate := RateChecked(AccountingCurrency(i), rates);
      if rate.None? {
        return None;
      }
      return Some(Value(Abs(Notional(i, q, Get(marks, s))), rate.value));
    }

    method NotionalUsdChecked(marks: Marks, rates: Rates) returns (r: Option<real>)
      ensures r == NotionalChecked(insts, rates, State(), marks)
    {
      hide NotionalUsdOf, NotionalValuable, SumOver, NotionalChecked;
      ghost var f := NotionalTerms(insts, rates, State(), marks);
      var total, left := 0.0, positions.Keys;
      while left != {}
        invariant left <= positions.Keys
        invariant total + SumOver(left, f) == SumOver(positions.Keys, f)
        invariant forall s :: s in positions.Keys - left ==> NotionalValuable(insts, rates, State(), marks, s)
        decreases |left|
      {
        var s :| s in left;
        SumRemove(left, f, s);
        var one := NotionalOf(s, marks, rates);
        if one.None? {
          NotionalRefused(insts, rates, State(), marks, s);
          return None;
        }
        total := total + one.value;
        left := left - {s};
      }
      SumNone(f);
      NotionalSummed(insts, rates, State(), marks);
      return Some(total);
    }

    method SettleListed(balances: seq<Balance>, marks: Marks) returns (r: Settlements<seq<Balance>>)
      ensures r == SettleBalances(insts, State(), balances, marks)
    {
      hide AccountEquity, Normalize;
      var done: seq<Balance> := [];
      assert balances[0..] == balances;
      PrependNothing(SettleBalances(insts, State(), balances, marks));
      for k := 0 to |balances|
        invariant SettleBalances(insts, State(), balances, marks)
                  == Prepend(done, SettleBalances(insts, State(), balances[k..], marks))
      {
        assert balances[k..][0] == balances[k] && balances[k..][1..] == balances[k + 1..];
        var c := balances[k].currency;
        var total := EquityInCurrency(c, marks);
        if total.None? {
          return Refused(BalanceUnvalued(c));
        }
        if total.value < 0.0 {
          return Refused(BalanceNegative(c));
        }
        PrependOne(done, Closing(balances[k], total.value), SettleBalances(insts, State(), balances[k + 1..], marks));
        done := done + [Closing(balances[k], total.value)];
      }
      assert done + [] == done;
      return Settled(done);
    }

    method SettleDerivatives(syms: seq<Symbol>, modes: map<Symbol, Option<MarginMode>>, marks: Marks)
      returns (r: Settlements<seq<Position>>)
      ensures r == SettlePositions(insts, State(), syms, modes, marks)
    {
      hide ValidMark;
      var done: seq<Position> := [];
      assert syms[0..] == syms;
      PrependNothing(SettlePositions(insts, State(), syms, modes, marks));
      for k := 0 to |syms|
        invariant SettlePositions(insts, State(), syms, modes, marks)
                  == Prepend(done, SettlePositions(insts, State(), syms[k..], modes, marks))
      {
        assert syms[k..][0] == syms[k] && syms[k..][1..] == syms[k + 1..];
        var s := syms[k];
        if s !in insts || insts[s].kind.Spot? {
          continue;
        }
        var q, mode := Get(positions, s), ModeOf(modes, s);
        if q != 0.0 && mode.None? {
          return Refused(NoMarginMode(s));
        }
        if q == 0.0 && s !in modes {
          continue;
        }
        if q != 0.0 && ValidMark(marks, s).None? {
          return Refused(NoMark(s));
        }
        var p := Position(s, q, if q == 0.0 then 0.0 else Get(marks, s), mode);
        PrependOne(done, p, SettlePositions(insts, State(), syms[k + 1..], modes, marks));
        done := done + [p];
      }
      assert done + [] == done;
      return Settled(done);
    }

    /** The opening snapshot of the next account: every check of `settled_initial_portfolio` in its order. */
    method SettledInitial(initial: Initial, marks: Marks, rates: Rates, leverage: real,
                          cmr: real) returns (r: Settlements<Initial>)
      ensures r == Settle(insts, rates, State(), initial, marks, leverage, cmr)
    {
      hide EquityChecked, NotionalChecked, SettleBalances, SettlePositions, SortedKeys, Modes, MarginFor;
      var equity := EquityUsdChecked(marks, rates);
      if equity.None? {
        return Refused(EquityUnvalued);
      }
      if equity.value < 0.0 {
        return Refused(EquityNegative);
      }
      var notional := NotionalUsdChecked(marks, rates);
      if notional.None? {
        return Refused(NotionalUnvalued);
      }
      var balances := SettleListed(initial.balances, marks);
      if balances.Refused? {
        return Refused(balances.error);
      }
      var syms := ListKeys(insts.Keys);
      var kept := SettleDerivatives(syms, Modes(initial.positions), marks);
      if kept.Refused? {
        return Refused(kept.error);
      }
      return Settled(Initial(initial.account, balances.value, kept.value,
                             MarginFor(equity.value, notional.value, leverage, cmr)));
    }
  }

  /** Items already settled, in front of the rest unless the rest is refused. */
  function Prepend<T>(done: seq<T>, rest: Settlements<seq<T>>): Settlements<seq<T>> {
    if rest.Refused? then rest else Settled(done + rest.value)
  }

  lemma PrependNothing<T>(rest: Settlements<seq<T>>)
    ensures Prepend([], rest) == rest
  {
    if rest.Settled? {
      assert [] + rest.value == rest.value;
    }
  }

  lemma PrependOne<T>(done: seq<T>, x: T, rest: Settlements<seq<T>>)
    ensures Prepend(done, Prepend([x], rest)) == Prepend(done + [x], rest)
  {
    if rest.Settled? {
      assert done + ([x] + rest.value) == done + [x] + rest.value;
    }
  }

  lemma ZeroNotional(i: Instrument, mark: real, rate: real)
    ensures Value(Abs(Notional(i, 0.0, mark)), rate) == 0.0
  {
  }

  lemma WorthlessEntry(i: Instrument, coin: real, mark: real)
    requires mark > 0.0 && (i.kind.IsInverse() ==> coin == 0.0)
    ensures Worth(i, 0.0, coin, mark) == 0.0
  {
  }

  lemma KnownWhenValued(insts: Instruments, l: Ledger, c: Currency, marks: Marks, s: Symbol)
    requires ValuedIn(insts, l, c, marks, s)
    ensures s in insts
  {
  }
}
