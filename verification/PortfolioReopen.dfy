/** How reopening a settled account changes its USD equity, exactly, and an account where it does. */
module PortfolioReopen {
  import opened Common
  import opened Sums
  import opened Keys
  import opened Portfolio
  import opened PortfolioAttribution
  import opened PortfolioBasis
  import opened PortfolioSettle

  // ---------------------------------------------------------------- USD equity of a reopened account

  lemma OpenBalanceUsd(insts: Instruments, rates: Rates, l: Ledger, b: Balance, marks: Marks)
    requires CoinsKept(l) && BalanceOk(insts, b) && (b.valuation.Some? ==> b.valuation.value !in l.positions)
    ensures EquityUsd(insts, rates, OpenBalance(l, b), marks)
            == EquityUsd(insts, rates, l, marks) + Value(b.total, Weight(insts, rates, marks, b))
    ensures CoinsKept(OpenBalance(l, b))
  {
    hide EquityUsd, RateOrPar, AccountingCurrency, Value, Normalize, Worth;
    var now := OpenBalance(l, b);
    if b.valuation.None? {
      CashCounts(insts, rates, l, now, marks, b.currency, b.total);
    } else {
      var s := b.valuation.value;
      var r := RateOrPar(AccountingCurrency(insts[s]), rates);
      if ValidMark(marks, s).None? {
        UncountedPosition(insts, rates, l, now, marks, s);
        WorthNothing(b.total);
      } else {
        SpotInventory(insts[s], b.total, marks[s]);
        EntryCounts(insts, rates, l, now, marks, s, Value(b.total, marks[s]));
        ValueNests(b.total, marks[s], r);
      }
    }
  }

  lemma WorthNothing(a: real)
    ensures Value(a, 0.0) == 0.0
  {
  }

  lemma ValueNests(a: real, p: real, r: real)
    ensures Value(Value(a, p), r) == Value(a, Value(p, r))
  {
  }

  lemma SpotInventory(i: Instrument, qty: real, mark: real)
    requires i.kind.Spot? && mark > 0.0
    ensures Worth(i, qty, 0.0, mark) == Value(qty, mark) && Worth(i, 0.0, 0.0, mark) == 0.0
  {
  }

  lemma OpenPositionUsd(insts: Instruments, rates: Rates, l: Ledger, p: Position, marks: Marks)
    requires CoinsKept(l) && PositionOk(p) && p.symbol in insts && !insts[p.symbol].kind.Spot?
             && p.symbol !in l.positions
    requires p.qty != 0.0 ==> ValidMark(marks, p.symbol) == Some(p.avgPrice)
    ensures EquityUsd(insts, rates, OpenPosition(insts, l, p), marks) == EquityUsd(insts, rates, l, marks)
    ensures CoinsKept(OpenPosition(insts, l, p))
  {
    var i, now := insts[p.symbol], OpenPosition(insts, l, p);
    if p.qty == 0.0 {
      UncountedPosition(insts, rates, l, now, marks, p.symbol);
    } else {
      hide EquityUsd, RateOrPar, AccountingCurrency, Coins, Cost, Worth;
      NothingIsWorthless(i, p.avgPrice);
      WorthAtCost(i, p.qty, p.avgPrice);
      EntriesCancel(insts, rates, l, now, marks, p.symbol, if i.kind.IsInverse() then 0.0 else Cost(i, p.qty, p.avgPrice));
    }
  }

  lemma WorthAtCost(i: Instrument, qty: real, price: real)
    requires price > 0.0 && !i.kind.Spot?
    ensures if i.kind.IsInverse() then Worth(i, qty, Coins(i, qty, price), price) == 0.0
            else Worth(i, qty, 0.0, price) == Cost(i, qty, price)
  {
  }

  /** A new entry that is zero, or has no valid mark, does not count in USD. */
  lemma UncountedPosition(insts: Instruments, rates: Rates, l: Ledger, now: Ledger, marks: Marks, s: Symbol)
    requires CoinsKept(l) && DiffersAt(l, now, s) && s !in l.positions && now.cash == l.cash && now.coin == l.coin
    requires s in insts && (Get(now.positions, s) == 0.0 || ValidMark(marks, s).None?)
    ensures EquityUsd(insts, rates, now, marks) == EquityUsd(insts, rates, l, marks)
  {
    hide RateOrPar, AccountingCurrency, Worth, Value, CashUsd;
    SumChange(l.positions.Keys, PositionTerms(insts, rates, l, marks), PositionTerms(insts, rates, now, marks), s);
    if s in marks && marks[s] > 0.0 {
      NothingIsWorthless(insts[s], marks[s]);
    }
    ValueAdds(0.0, 0.0, RateOrPar(AccountingCurrency(insts[s]), rates));
  }

  function BalancesUsd(insts: Instruments, rates: Rates, marks: Marks, balances: seq<Balance>): real {
    if balances == [] then 0.0
    else Value(balances[0].total, Weight(insts, rates, marks, balances[0])) + BalancesUsd(insts, rates, marks, balances[1..])
  }

  lemma {:induction false} OpenBalancesUsd(insts: Instruments, rates: Rates, l: Ledger, balances: seq<Balance>,
                                           marks: Marks)
    requires CoinsKept(l) && BalancesOk(insts, balances) && Fresh(insts, l, balances)
    ensures EquityUsd(insts, rates, OpenBalances(l, balances), marks)
            == EquityUsd(insts, rates, l, marks) + BalancesUsd(insts, rates, marks, balances)
    ensures CoinsKept(OpenBalances(l, balances)) && Fresh(insts, OpenBalances(l, balances), [])
    decreases |balances|
  {
    hide EquityUsd, Normalize, Weight, Value, ValidMark;
    if balances != [] {
      OpenBalanceUsd(insts, rates, l, balances[0], marks);
      OpenBalancesUsd(insts, rates, OpenBalance(l, balances[0]), balances[1..], marks);
    }
  }

  lemma {:induction false} OpenPositionsUsd(insts: Instruments, rates: Rates, l: Ledger, positions: seq<Position>,
                                            marks: Marks)
    requires CoinsKept(l) && AtMarks(insts, l, positions, marks)
    ensures EquityUsd(insts, rates, OpenPositions(insts, l, positions), marks) == EquityUsd(insts, rates, l, marks)
    decreases |positions|
  {
    hide EquityUsd, AccountingCurrency, Coins, Cost;
    if positions != [] {
      OpenPositionUsd(insts, rates, l, positions[0], marks);
      OpenPositionsUsd(insts, rates, OpenPosition(insts, l, positions[0]), positions[1..], marks);
    }
  }

  /** A reopened account is worth its balances. */
  lemma ReopenedUsd(insts: Instruments, rates: Rates, balances: seq<Balance>, positions: seq<Position>, marks: Marks)
    requires BalancesOk(insts, balances) && AtMarks(insts, EMPTY, positions, marks)
    ensures EquityUsd(insts, rates, OpenPositions(insts, OpenBalances(EMPTY, balances), positions), marks)
            == BalancesUsd(insts, rates, marks, balances)
  {
    assert EquityUsd(insts, rates, EMPTY, marks) == 0.0;
    hide EquityUsd, BalanceOk, BalancesUsd, ValidMark;
    OpenBalancesUsd(insts, rates, EMPTY, balances, marks);
    assert AtMarks(insts, OpenBalances(EMPTY, balances), positions, marks);
    OpenPositionsUsd(insts, rates, OpenBalances(EMPTY, balances), positions, marks);
  }

  // ---------------------------------------------------------------- each entry of the account before

  /** USD per unit of a currency once it is a listed balance; a currency no balance lists is lost. */
  function WeightOf(insts: Instruments, rates: Rates, marks: Marks, balances: seq<Balance>, c: Currency): real {
    if balances == [] then 0.0
    else if balances[0].currency == c then Weight(insts, rates, marks, balances[0])
    else WeightOf(insts, rates, marks, balances[1..], c)
  }

  function OnlyAt(c: Currency, x: real): Currency -> real {
    k => if k == c then x else 0.0
  }

  /** An amount of one currency is worth that currency's weight. */
  lemma {:induction false} WeighOnly(insts: Instruments, rates: Rates, marks: Marks, balances: seq<Balance>,
                                     c: Currency, x: real,
                                     f: Currency -> real)
    requires forall i, j :: 0 <= i < j < |balances| ==> balances[i].currency != balances[j].currency
    requires forall k :: f(k) == if k == c then x else 0.0
    ensures WeighAll(insts, rates, marks, balances, f) == Value(x, WeightOf(insts, rates, marks, balances, c))
  {
    hide Weight, Value;
    if balances == [] {
      WorthNothing(x);
    } else if balances[0].currency == c {
      WeighZero(insts, rates, marks, balances[1..], f);
    } else {
      ValueAdds(0.0, 0.0, Weight(insts, rates, marks, balances[0]));
      WeighOnly(insts, rates, marks, balances[1..], c, x, f);
    }
  }

  ghost function CashPart(cash: map<Currency, real>, keys: set<Currency>): Currency -> real {
    c => if c in keys then Get(cash, c) else 0.0
  }

  function WeighedCash(insts: Instruments, rates: Rates, marks: Marks, balances: seq<Balance>,
                       cash: map<Currency, real>): Currency -> real {
    c => Value(Get(cash, c), WeightOf(insts, rates, marks, balances, c))
  }

  lemma {:induction false} WeighAllCash(insts: Instruments, rates: Rates, marks: Marks, balances: seq<Balance>,
                                        cash: map<Currency, real>, keys: set<Currency>)
    requires BalancesOk(insts, balances)
    ensures WeighAll(insts, rates, marks, balances, CashPart(cash, keys))
            == SumOver(keys, WeighedCash(insts, rates, marks, balances, cash))
    decreases |keys|
  {
    hide WeighAll, WeightOf, Value, BalanceOk, SumOver;
    if keys == {} {
      SumNone(WeighedCash(insts, rates, marks, balances, cash));
      WeighZero(insts, rates, marks, balances, CashPart(cash, keys));
    } else {
      var c :| c in keys;
      SumRemove(keys, WeighedCash(insts, rates, marks, balances, cash), c);
      WeighAllCash(insts, rates, marks, balances, cash, keys - {c});
      WeighOnly(insts, rates, marks, balances, c, Get(cash, c), OnlyAt(c, Get(cash, c)));
      WeighAdds(insts, rates, marks, balances, CashPart(cash, keys - {c}), OnlyAt(c, Get(cash, c)), CashPart(cash, keys));
    }
  }

  /** The currency a symbol's entries are native to. */
  function NativeCurrency(i: Instrument): Currency {
    if i.kind.Spot? then Normalize(i.base) else Settlement(i)
  }

  /** What a symbol's entries are worth in that currency. */
  function NativeOf(insts: Instruments, l: Ledger, marks: Marks, s: Symbol): real {
    if s !in insts then 0.0 else EquityOf(insts, l, NativeCurrency(insts[s]), marks, s)
  }

  /** USD per native unit while it is still a position: the rate for linear, the mark in the quote currency otherwise. */
  function UnitUsd(insts: Instruments, rates: Rates, marks: Marks, s: Symbol): real {
    if s !in insts then 0.0
    else if insts[s].kind.IsLinear() then RateOrPar(AccountingCurrency(insts[s]), rates)
    else Value(if ValidMark(marks, s).Some? then marks[s] else 0.0, RateOrPar(AccountingCurrency(insts[s]), rates))
  }

  /** USD per native unit once it is reopened. */
  function ReopenedUnit(insts: Instruments, rates: Rates, marks: Marks, balances: seq<Balance>, s: Symbol): real {
    if s !in insts then 0.0 else WeightOf(insts, rates, marks, balances, NativeCurrency(insts[s]))
  }

  function SymbolPart(insts: Instruments, l: Ledger, marks: Marks, s: Symbol): Currency -> real {
    c => EquityOf(insts, l, c, marks, s)
  }

  ghost function PositionsPart(insts: Instruments, l: Ledger, marks: Marks, keys: set<Symbol>): Currency -> real {
    c => SumOver(keys, EquityTerms(insts, l, c, marks))
  }

  lemma PartSplits(insts: Instruments, l: Ledger, marks: Marks, keys: set<Symbol>, s: Symbol)
    requires s in keys
    ensures forall c :: PositionsPart(insts, l, marks, keys)(c)
                        == PositionsPart(insts, l, marks, keys - {s})(c) + SymbolPart(insts, l, marks, s)(c)
  {
    hide EquityOf;
    forall c ensures PositionsPart(insts, l, marks, keys)(c)
                     == PositionsPart(insts, l, marks, keys - {s})(c) + SymbolPart(insts, l, marks, s)(c)
    {
      SumRemove(keys, EquityTerms(insts, l, c, marks), s);
    }
  }

  /** A symbol contributes to its native currency only. */
  lemma NativeOnly(insts: Instruments, l: Ledger, marks: Marks, s: Symbol, c: Currency)
    requires s in insts
    ensures EquityOf(insts, l, c, marks, s) == if c == NativeCurrency(insts[s]) then NativeOf(insts, l, marks, s) else 0.0
  {
    hide Normalize, Settlement, Cost, Coins;
  }

  function WeighedSymbols(insts: Instruments, rates: Rates, l: Ledger, marks: Marks,
                          balances: seq<Balance>): Symbol -> real {
    s => Value(NativeOf(insts, l, marks, s), ReopenedUnit(insts, rates, marks, balances, s))
  }

  lemma WeighSymbol(insts: Instruments, rates: Rates, l: Ledger, marks: Marks, balances: seq<Balance>, s: Symbol)
    requires BalancesOk(insts, balances)
    ensures WeighAll(insts, rates, marks, balances, SymbolPart(insts, l, marks, s))
            == WeighedSymbols(insts, rates, l, marks, balances)(s)
  {
    var f := SymbolPart(insts, l, marks, s);
    if s in insts {
      forall c ensures f(c) == if c == NativeCurrency(insts[s]) then NativeOf(insts, l, marks, s) else 0.0 {
        NativeOnly(insts, l, marks, s, c);
      }
      hide WeighAll, Value, BalanceOk, NativeOf, NativeCurrency, WeightOf;
      WeighOnly(insts, rates, marks, balances, NativeCurrency(insts[s]), NativeOf(insts, l, marks, s), f);
    } else {
      WeighZero(insts, rates, marks, balances, f);
      WorthNothing(0.0);
    }
  }

  lemma {:induction false} WeighPositions(insts: Instruments, rates: Rates, l: Ledger, marks: Marks,
                                          balances: seq<Balance>, keys: set<Symbol>)
    requires BalancesOk(insts, balances)
    ensures WeighAll(insts, rates, marks, balances, PositionsPart(insts, l, marks, keys))
            == SumOver(keys, WeighedSymbols(insts, rates, l, marks, balances))
    decreases |keys|
  {
    hide WeighAll, BalanceOk, EquityOf, WeighedSymbols;
    if keys == {} {
      WeighZero(insts, rates, marks, balances, PositionsPart(insts, l, marks, keys));
    } else {
      var s :| s in keys;
      SumRemove(keys, WeighedSymbols(insts, rates, l, marks, balances), s);
      WeighPositions(insts, rates, l, marks, balances, keys - {s});
      WeighSymbol(insts, rates, l, marks, balances, s);
      PartSplits(insts, l, marks, keys, s);
      hide PositionsPart, SymbolPart;
      WeighAdds(insts, rates, marks, balances, PositionsPart(insts, l, marks, keys - {s}), SymbolPart(insts, l, marks, s),
                PositionsPart(insts, l, marks, keys));
    }
  }

  // ---------------------------------------------------------------- the exact change in USD equity

  /** What an entry gains: its native amount times the change in USD per unit. */
  function Gap(amount: real, before: real, now: real): real {
    Value(amount, now - before)
  }

  lemma GapIs(amount: real, before: real, now: real)
    ensures Gap(amount, before, now) == Value(amount, now) - Value(amount, before)
    ensures Gap(amount, before, now) == 0.0 <==> amount == 0.0 || before == now
  {
  }

  function CashGap(insts: Instruments, rates: Rates, marks: Marks, balances: seq<Balance>, cash: map<Currency, real>,
                   c: Currency): real {
    Gap(Get(cash, c), RateOrPar(c, rates), WeightOf(insts, rates, marks, balances, c))
  }

  function CashGaps(insts: Instruments, rates: Rates, marks: Marks, balances: seq<Balance>,
                    cash: map<Currency, real>): Currency -> real {
    c => CashGap(insts, rates, marks, balances, cash, c)
  }

  function SymbolGap(insts: Instruments, rates: Rates, l: Ledger, marks: Marks, balances: seq<Balance>,
                     s: Symbol): real {
    Gap(NativeOf(insts, l, marks, s), UnitUsd(insts, rates, marks, s), ReopenedUnit(insts, rates, marks, balances, s))
  }

  function SymbolGaps(insts: Instruments, rates: Rates, l: Ledger, marks: Marks,
                      balances: seq<Balance>): Symbol -> real {
    s => SymbolGap(insts, rates, l, marks, balances, s)
  }

  /** Cash that is not listed, or is listed as inventory, and symbols whose currency is worth more or less once reopened. */
  ghost function TotalGap(insts: Instruments, rates: Rates, l: Ledger, marks: Marks, balances: seq<Balance>): real {
    SumOver(l.cash.Keys, CashGaps(insts, rates, marks, balances, l.cash))
    + SumOver(l.positions.Keys, SymbolGaps(insts, rates, l, marks, balances))
  }

  /** A priceable position is worth its native equity at its unit price. */
  lemma PositionIsNative(insts: Instruments, rates: Rates, l: Ledger, marks: Marks, s: Symbol)
    requires PositionValuable(insts, rates, l, marks, s)
    ensures PositionUsd(insts, rates, l, marks, s) == Value(NativeOf(insts, l, marks, s), UnitUsd(insts, rates, marks, s))
  {
    hide RateOrPar, RateChecked, Normalize, Value, AccountingCurrency, Settlement, Worth, Cost, Coins;
    var i, q, coin, r := insts[s], Get(l.positions, s), Get(l.coin, s), RateOrPar(AccountingCurrency(insts[s]), rates);
    ValueAdds(0.0, 0.0, r);
    ValueAdds(0.0, 0.0, UnitUsd(insts, rates, marks, s));
    NoCost(i, Get(marks, s));
    if ValidMark(marks, s).Some? {
      WorthIs(i, q, coin, marks[s]);
      ValueNests(NativeOf(insts, l, marks, s), marks[s], r);
    }
  }

  lemma WorthIs(i: Instrument, q: real, coin: real, mark: real)
    requires mark > 0.0
    ensures Worth(i, q, coin, mark)
            == if i.kind.Spot? then Value(q, mark)
               else if i.kind.IsLinear() then Cost(i, q, mark)
               else Value(if q == 0.0 && coin == 0.0 then 0.0 else coin - Coins(i, q, mark), mark)
  {
  }

  ghost function Equities(insts: Instruments, l: Ledger, marks: Marks): Currency -> real {
    c => EquityValue(insts, l, c, marks)
  }

  /** Valuing every listed currency's native equity at its weight differs from USD equity by exactly the entries' gaps. */
  lemma WeighedEquity(insts: Instruments, rates: Rates, l: Ledger, marks: Marks, balances: seq<Balance>)
    requires BalancesOk(insts, balances) && Valuable(insts, rates, l, marks)
    ensures WeighAll(insts, rates, marks, balances, Equities(insts, l, marks))
            == EquityUsd(insts, rates, l, marks) + TotalGap(insts, rates, l, marks, balances)
  {
    CashGapsAdd(insts, rates, marks, balances, l.cash);
    SymbolGapsAdd(insts, rates, l, marks, balances);
    WeighAllCash(insts, rates, marks, balances, l.cash, l.cash.Keys);
    WeighPositions(insts, rates, l, marks, balances, l.positions.Keys);
    EquitiesSplit(insts, l, marks);
    hide WeighAll, BalanceOk, Valuable, SumOver, WeighedCash, WeighedSymbols, CashGaps, SymbolGaps, CashPart,
         PositionsPart, Equities,
         CashUsd, PositionsUsd;
    WeighAdds(insts, rates, marks, balances, CashPart(l.cash, l.cash.Keys), PositionsPart(insts, l, marks, l.positions.Keys),
              Equities(insts, l, marks));
  }

  lemma EquitiesSplit(insts: Instruments, l: Ledger, marks: Marks)
    ensures forall c :: Equities(insts, l, marks)(c)
                        == CashPart(l.cash, l.cash.Keys)(c) + PositionsPart(insts, l, marks, l.positions.Keys)(c)
  {
    hide SumOver, EquityTerms;
  }

  lemma CashGapsAdd(insts: Instruments, rates: Rates, marks: Marks, balances: seq<Balance>, cash: map<Currency, real>)
    ensures SumOver(cash.Keys, WeighedCash(insts, rates, marks, balances, cash))
            == CashUsd(rates, cash) + SumOver(cash.Keys, CashGaps(insts, rates, marks, balances, cash))
  {
    hide SumOver, WeightOf, RateOrPar, Value, Gap;
    var f, g := WeighedCash(insts, rates, marks, balances, cash), CashTerms(rates, cash);
    var h := CashGaps(insts, rates, marks, balances, cash);
    forall c ensures h(c) == f(c) - g(c) {
      GapIs(Get(cash, c), RateOrPar(c, rates), WeightOf(insts, rates, marks, balances, c));
    }
    SumMinus(cash.Keys, f, g, h);
  }

  lemma SymbolGapsAdd(insts: Instruments, rates: Rates, l: Ledger, marks: Marks, balances: seq<Balance>)
    requires Valuable(insts, rates, l, marks)
    ensures SumOver(l.positions.Keys, WeighedSymbols(insts, rates, l, marks, balances))
            == PositionsUsd(insts, rates, l, marks) + SumOver(l.positions.Keys, SymbolGaps(insts, rates, l, marks, balances))
  {
    hide SumOver, NativeOf, UnitUsd, ReopenedUnit, Value, Gap, PositionUsd, PositionValuable, RateChecked;
    var f, g := WeighedSymbols(insts, rates, l, marks, balances), PositionTerms(insts, rates, l, marks);
    var h := SymbolGaps(insts, rates, l, marks, balances);
    forall s | s in l.positions.Keys ensures h(s) == f(s) - g(s) {
      PositionIsNative(insts, rates, l, marks, s);
      GapIs(NativeOf(insts, l, marks, s), UnitUsd(insts, rates, marks, s), ReopenedUnit(insts, rates, marks, balances, s));
    }
    SumMinus(l.positions.Keys, f, g, h);
  }

  lemma {:induction false} WeighSettled(insts: Instruments, rates: Rates, marks: Marks, balances: seq<Balance>,
                                        done: seq<Balance>,
                                        x: Currency -> real)
    requires |done| == |balances|
    requires forall k :: 0 <= k < |balances| ==> done[k] == Closing(balances[k], x(balances[k].currency))
    ensures BalancesUsd(insts, rates, marks, done) == WeighAll(insts, rates, marks, balances, x)
  {
    hide Value, RateOrPar, AccountingCurrency, ValidMark;
    if balances != [] {
      assert done[0] == Closing(balances[0], x(balances[0].currency));
      WeighSettled(insts, rates, marks, balances[1..], done[1..], x);
    }
  }

  /**
   Reopening changes USD equity by exactly the sum of the gaps: for each cash currency its amount times weight minus
   rate, and for each symbol its native equity times weight minus unit price. So USD equity is kept exactly when they cancel.
   */
  lemma ReopenGap(insts: Instruments, rates: Rates, l: Ledger, initial: Initial, marks: Marks, leverage: real,
                  cmr: real, done: Initial)
    requires SettlesTo(insts, rates, l, initial, marks, leverage, cmr, done)
    ensures PositionsOk(done.positions)
    ensures EquityUsd(insts, rates, WithInitial(insts, done), marks)
            == EquityUsd(insts, rates, l, marks) + TotalGap(insts, rates, l, marks, initial.balances)
  {
    assert Valuable(insts, rates, l, marks);
    hide EquityUsd, Settle, SettlePositions, SettleBalances, BalancesUsd, WeighAll, Valuable, EquityValue,
         AccountEquity, BalanceOk,
         TotalGap;
    SettledSnapshot(insts, rates, l, initial, marks, leverage, cmr, done);
    SettledBalances(insts, l, initial.balances, marks);
    CurrenciesNormal(insts, initial.balances);
    WeighSettled(insts, rates, marks, initial.balances, done.balances, Equities(insts, l, marks));
    WeighedEquity(insts, rates, l, marks, initial.balances);
    ReopenedUsd(insts, rates, done.balances, done.positions, marks);
  }

  /** Every cash entry and every symbol but `s` is worth the same before and after. */
  ghost predicate EvenBut(insts: Instruments, rates: Rates, l: Ledger, marks: Marks, balances: seq<Balance>,
                          s: Symbol) {
    && (forall c :: c in l.cash ==> CashGap(insts, rates, marks, balances, l.cash, c) == 0.0)
    && (forall j :: j in l.positions && j != s ==> SymbolGap(insts, rates, l, marks, balances, j) == 0.0)
  }

  /** With everything else even, USD equity is kept exactly when native equity is zero or its unit keeps its price. */
  lemma OneSymbolDecides(insts: Instruments, rates: Rates, l: Ledger, initial: Initial, marks: Marks, leverage: real,
                         cmr: real,
                         done: Initial, s: Symbol)
    requires SettlesTo(insts, rates, l, initial, marks, leverage, cmr, done) && s in l.positions
    requires EvenBut(insts, rates, l, marks, initial.balances, s)
    ensures PositionsOk(done.positions)
    ensures EquityUsd(insts, rates, WithInitial(insts, done), marks) == EquityUsd(insts, rates, l, marks)
            <==> NativeOf(insts, l, marks, s) == 0.0
                 || ReopenedUnit(insts, rates, marks, initial.balances, s) == UnitUsd(insts, rates, marks, s)
  {
    ReopenGap(insts, rates, l, initial, marks, leverage, cmr, done);
    hide *;
    OneGap(insts, rates, l, marks, initial.balances, s);
    SymbolGapZero(insts, rates, l, marks, initial.balances, s);
  }

  lemma SymbolGapZero(insts: Instruments, rates: Rates, l: Ledger, marks: Marks, balances: seq<Balance>, s: Symbol)
    ensures SymbolGap(insts, rates, l, marks, balances, s) == 0.0
            <==> NativeOf(insts, l, marks, s) == 0.0
                 || ReopenedUnit(insts, rates, marks, balances, s) == UnitUsd(insts, rates, marks, s)
  {
    hide NativeOf, UnitUsd, ReopenedUnit, Gap;
    GapIs(NativeOf(insts, l, marks, s), UnitUsd(insts, rates, marks, s), ReopenedUnit(insts, rates, marks, balances, s));
  }

  lemma OneGap(insts: Instruments, rates: Rates, l: Ledger, marks: Marks, balances: seq<Balance>, s: Symbol)
    requires s in l.positions && EvenBut(insts, rates, l, marks, balances, s)
    ensures TotalGap(insts, rates, l, marks, balances) == SymbolGap(insts, rates, l, marks, balances, s)
  {
    hide CashGap, SymbolGap, SumOver;
    SumZero(l.cash.Keys, CashGaps(insts, rates, marks, balances, l.cash));
    var f := SymbolGaps(insts, rates, l, marks, balances);
    SumRemove(l.positions.Keys, f, s);
    SumZero(l.positions.Keys - {s}, f);
  }

  // ---------------------------------------------------------------- accounts without gaps

  predicate ListedCash(balances: seq<Balance>, c: Currency) {
    exists k :: 0 <= k < |balances| && balances[k].currency == c && balances[k].valuation.None?
  }

  predicate ListedInventory(balances: seq<Balance>, c: Currency, s: Symbol) {
    exists k :: 0 <= k < |balances| && balances[k].currency == c && balances[k].valuation == Some(s)
  }

  /** A position the listed balances account for: linear and settled in listed cash, or a listed spot inventory. */
  predicate PlainAt(insts: Instruments, l: Ledger, balances: seq<Balance>, s: Symbol) {
    && s in insts
    && (insts[s].kind.IsInverse() ==> Get(l.positions, s) == 0.0 && Get(l.coin, s) == 0.0)
    && (insts[s].kind.IsLinear() && Get(l.positions, s) != 0.0 ==> ListedCash(balances, AccountingCurrency(insts[s])))
    && (insts[s].kind.Spot? && Get(l.positions, s) != 0.0 ==> ListedInventory(balances, Normalize(insts[s].base), s))
  }

  /** All value is in listed cash, linear derivatives settled in it, and listed spot inventory. */
  predicate Plain(insts: Instruments, l: Ledger, balances: seq<Balance>) {
    && (forall s :: s in l.positions ==> PlainAt(insts, l, balances, s))
    && (forall c :: c in l.cash && l.cash[c] != 0.0 ==> ListedCash(balances, c))
  }

  lemma {:induction false} WeightOfListed(insts: Instruments, rates: Rates, marks: Marks, balances: seq<Balance>,
                                          k: nat)
    requires k < |balances| && forall i, j :: 0 <= i < j < |balances| ==> balances[i].currency != balances[j].currency
    ensures WeightOf(insts, rates, marks, balances, balances[k].currency) == Weight(insts, rates, marks, balances[k])
  {
    hide Weight;
    if k > 0 {
      WeightOfListed(insts, rates, marks, balances[1..], k - 1);
    }
  }

  lemma PlainCash(insts: Instruments, rates: Rates, marks: Marks, balances: seq<Balance>, cash: map<Currency, real>,
                  c: Currency)
    requires BalancesOk(insts, balances) && (Get(cash, c) != 0.0 ==> ListedCash(balances, c))
    ensures CashGap(insts, rates, marks, balances, cash, c) == 0.0
  {
    hide Gap, RateOrPar, WeightOf, BalanceOk;
    GapIs(Get(cash, c), RateOrPar(c, rates), WeightOf(insts, rates, marks, balances, c));
    if Get(cash, c) != 0.0 {
      var k :| 0 <= k < |balances| && balances[k].currency == c && balances[k].valuation.None?;
      WeightOfListed(insts, rates, marks, balances, k);
    }
  }

  lemma PlainSymbol(insts: Instruments, rates: Rates, l: Ledger, marks: Marks, balances: seq<Balance>, s: Symbol)
    requires BalancesOk(insts, balances) && PlainAt(insts, l, balances, s)
             && PositionValuable(insts, rates, l, marks, s)
    ensures SymbolGap(insts, rates, l, marks, balances, s) == 0.0
  {
    hide Gap, RateOrPar, RateChecked, WeightOf, BalanceOk, Normalize, AccountingCurrency, CoinCurrency, Cost, Coins,
         Value;
    var i := insts[s];
    GapIs(NativeOf(insts, l, marks, s), UnitUsd(insts, rates, marks, s), ReopenedUnit(insts, rates, marks, balances, s));
    NoCost(i, Get(marks, s));
    if Get(l.positions, s) != 0.0 {
      if i.kind.Spot? {
        var k :| 0 <= k < |balances| && balances[k].currency == Normalize(i.base) && balances[k].valuation == Some(s);
        WeightOfListed(insts, rates, marks, balances, k);
      } else {
        var k :| 0 <= k < |balances| && balances[k].currency == AccountingCurrency(i) && balances[k].valuation.None?;
        WeightOfListed(insts, rates, marks, balances, k);
      }
    }
  }

  /** In particular it is kept when all value is in listed cash, linear derivatives settled in it, and inventory. */
  lemma ReopenKeepsUsd(insts: Instruments, rates: Rates, l: Ledger, initial: Initial, marks: Marks, leverage: real,
                       cmr: real, done: Initial)
    requires SettlesTo(insts, rates, l, initial, marks, leverage, cmr, done)
    requires Plain(insts, l, initial.balances)
    ensures PositionsOk(done.positions)
    ensures EquityUsd(insts, rates, WithInitial(insts, done), marks) == EquityUsd(insts, rates, l, marks)
  {
    ReopenGap(insts, rates, l, initial, marks, leverage, cmr, done);
    assert Valuable(insts, rates, l, marks);
    hide EquityUsd, Settle, CashGap, SymbolGap, SumOver, PlainAt, PositionValuable, BalanceOk;
    forall c | c in l.cash.Keys ensures CashGaps(insts, rates, marks, initial.balances, l.cash)(c) == 0.0 {
      PlainCash(insts, rates, marks, initial.balances, l.cash, c);
    }
    forall s | s in l.positions.Keys ensures SymbolGaps(insts, rates, l, marks, initial.balances)(s) == 0.0 {
      PlainSymbol(insts, rates, l, marks, initial.balances, s);
    }
    SumZero(l.cash.Keys, CashGaps(insts, rates, marks, initial.balances, l.cash));
    SumZero(l.positions.Keys, SymbolGaps(insts, rates, l, marks, initial.balances));
  }

  lemma CurrenciesNormal(insts: Instruments, balances: seq<Balance>)
    requires BalancesOk(insts, balances)
    ensures forall k :: 0 <= k < |balances| ==> Normalize(balances[k].currency) == balances[k].currency
  {
  }

  // ---------------------------------------------------------------- coins revalued

  lemma SingleKey(k: string)
    ensures SortedKeys({k}) == [k]
  {
    var s := SortedKeys({k});
    assert k in s;
    assert forall i :: 0 <= i < |s| ==> s[i] in s;
  }

  lemma SumOfOne<K(!new)>(k: K, f: K -> real)
    ensures SumOver({k}, f) == f(k)
  {
    SumRemove({k}, f, k);
    assert {k} - {k} == {};
  }

  const COIN_SWAP := Instrument(InverseSwap, "BTC", "USD", "BTC", 100.0, 0.0, 0.0)
  const COIN_LEDGER := EMPTY.(positions := map["S" := 0.0], coin := map["S" := 1.0])
  const COIN_LISTING := Initial(None, [Balance("BTC", 0.0, None, None, None, None, None)], [],
                                Margin(None, None, None, None))

  lemma CoinNames()
    ensures Normalize("BTC") == "BTC" && Normalize("USD") == "USD"
    ensures AccountingCurrency(COIN_SWAP) == "USD" && Settlement(COIN_SWAP) == "BTC"
  {
  }

  const COIN_INSTS: Instruments := map["S" := COIN_SWAP]
  const COIN_MARKS: Marks := map["S" := 100.0]

  lemma CoinLedgerUsd(rates: Rates)
    ensures EquityUsd(COIN_INSTS, rates, COIN_LEDGER, COIN_MARKS) == 100.0
  {
    assert PositionUsd(COIN_INSTS, rates, COIN_LEDGER, COIN_MARKS, "S") == 100.0 by {
      CoinNames();
      assert Coins(COIN_SWAP, 0.0, 100.0) == 0.0;
    }
    hide PositionUsd;
    SumOfOne("S", PositionTerms(COIN_INSTS, rates, COIN_LEDGER, COIN_MARKS));
    assert COIN_LEDGER.positions.Keys == {"S"} && COIN_LEDGER.cash.Keys == {};
  }

  lemma CoinLedgerNative()
    ensures AccountEquity(COIN_INSTS, COIN_LEDGER, "BTC", COIN_MARKS) == Some(1.0)
  {
    assert EquityOf(COIN_INSTS, COIN_LEDGER, "BTC", COIN_MARKS, "S") == 1.0 by {
      CoinNames();
      assert Coins(COIN_SWAP, 0.0, 100.0) == 0.0;
    }
    hide EquityOf;
    SumOfOne("S", EquityTerms(COIN_INSTS, COIN_LEDGER, "BTC", COIN_MARKS));
    assert COIN_LEDGER.positions.Keys == {"S"};
  }

  lemma CoinBalances()
    ensures SettleBalances(COIN_INSTS, COIN_LEDGER, COIN_LISTING.balances, COIN_MARKS)
            == Settled([Closing(COIN_LISTING.balances[0], 1.0)])
  {
    CoinLedgerNative();
    CoinNames();
    hide AccountEquity, Normalize;
    var balances := COIN_LISTING.balances;
    assert balances[1..] == [];
    assert SettleBalances(COIN_INSTS, COIN_LEDGER, [], COIN_MARKS) == Settled([]);
    assert [Closing(balances[0], 1.0)] + [] == [Closing(balances[0], 1.0)];
  }

  lemma CoinPositions()
    ensures SettlePositions(COIN_INSTS, COIN_LEDGER, SortedKeys(COIN_INSTS.Keys), Modes([]), COIN_MARKS) == Settled([])
  {
    assert COIN_INSTS.Keys == {"S"};
    SingleKey("S");
    assert ["S"][1..] == [];
  }

  lemma CoinValued(rates: Rates)
    ensures EquityChecked(COIN_INSTS, rates, COIN_LEDGER, COIN_MARKS) == Some(100.0)
    ensures NotionalChecked(COIN_INSTS, rates, COIN_LEDGER, COIN_MARKS).Some?
  {
    CoinLedgerUsd(rates);
    CoinNames();
    hide EquityUsd, Normalize, NotionalUsdOf;
  }

  lemma CoinSettles(rates: Rates) returns (done: Initial)
    ensures SettlesTo(COIN_INSTS, rates, COIN_LEDGER, COIN_LISTING, COIN_MARKS, 1.0, 1.0, done)
    ensures done.balances == [Closing(COIN_LISTING.balances[0], 1.0)] && done.positions == []
  {
    CoinNames();
    CoinBalances();
    CoinPositions();
    CoinValued(rates);
    hide Normalize, EquityChecked, NotionalChecked, SettleBalances, SettlePositions, Modes, MarginFor;
    done := Settle(COIN_INSTS, rates, COIN_LEDGER, COIN_LISTING, COIN_MARKS, 1.0, 1.0).value;
  }

  /** Coins held in an inverse instrument are valued at its mark, but reopened as cash at the coin's own rate. */
  lemma CoinRevaluationExample() returns (done: Initial)
    ensures var rates := map["BTC" := 90.0];
            && SettlesTo(COIN_INSTS, rates, COIN_LEDGER, COIN_LISTING, COIN_MARKS, 1.0, 1.0, done)
            && PositionsOk(done.positions)
            && EquityUsd(COIN_INSTS, rates, WithInitial(COIN_INSTS, done), COIN_MARKS)
               != EquityUsd(COIN_INSTS, rates, COIN_LEDGER, COIN_MARKS)
  {
    var rates := map["BTC" := 90.0];
    done := CoinSettles(rates);
    CoinLedgerUsd(rates);
    hide Settle, SettlesTo, EquityUsd;
    ReopenedUsd(COIN_INSTS, rates, done.balances, done.positions, COIN_MARKS);
    OneBalanceUsd(COIN_INSTS, rates, COIN_MARKS, done.balances[0]);
  }

  lemma OneBalanceUsd(insts: Instruments, rates: Rates, marks: Marks, b: Balance)
    ensures BalancesUsd(insts, rates, marks, [b]) == Value(b.total, Weight(insts, rates, marks, b))
  {
    assert [b][1..] == [];
  }
}
