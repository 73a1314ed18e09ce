/** Equity changes only by market moves, funding and fees: the ledger's attribution is conserved over whole runs. */
module PortfolioAttribution {
  import opened Common
  import opened Sums
  import opened Portfolio

  // ---------------------------------------------------------------- how equity responds to one entry

  lemma ValueAdds(a: real, b: real, r: real)
    ensures Value(a + b, r) == Value(a, r) + Value(b, r) && Value(0.0, r) == 0.0 && Value(-b, r) == -Value(b, r)
  {
  }

  lemma CashEntry(rates: Rates, cash: map<Currency, real>, c: Currency, x: real)
    ensures CashUsd(rates, AddTo(cash, c, x)) == CashUsd(rates, cash) + Value(x, RateOrPar(c, rates))
  {
    hide RateOrPar, Value;
    var now := AddTo(cash, c, x);
    SumChange(cash.Keys, CashTerms(rates, cash), CashTerms(rates, now), c);
    ValueAdds(Get(cash, c), x, RateOrPar(c, rates));
  }

  /** Coins are kept only for symbols that have a position entry. */
  predicate CoinsKept(l: Ledger) {
    l.coin.Keys <= l.positions.Keys
  }

  /** Only the entries of symbol `s` differ. */
  ghost predicate DiffersAt(l: Ledger, now: Ledger, s: Symbol) {
    && now.positions.Keys == l.positions.Keys + {s}
    && forall j :: j != s ==> Get(now.positions, j) == Get(l.positions, j) && Get(now.coin, j) == Get(l.coin, j)
  }

  function WorthAt(i: Instrument, l: Ledger, s: Symbol, mark: real): real
    requires mark > 0.0
  {
    Worth(i, Get(l.positions, s), Get(l.coin, s), mark)
  }

  lemma NothingIsWorthless(i: Instrument, mark: real)
    requires mark > 0.0
    ensures Worth(i, 0.0, 0.0, mark) == 0.0
  {
  }

  /** If a symbol's entries gain `gain` in worth, equity gains that at the symbol's currency rate. */
  lemma PositionEntry(insts: Instruments, rates: Rates, l: Ledger, now: Ledger, marks: Marks, s: Symbol, gain: real)
    requires CoinsKept(l) && DiffersAt(l, now, s) && s in insts && s in marks && marks[s] > 0.0
    requires WorthAt(insts[s], now, s, marks[s]) == WorthAt(insts[s], l, s, marks[s]) + gain
    ensures PositionsUsd(insts, rates, now, marks)
            == PositionsUsd(insts, rates, l, marks) + Value(gain, RateOrPar(AccountingCurrency(insts[s]), rates))
  {
    hide Worth, RateOrPar, AccountingCurrency, Value;
    SumChange(l.positions.Keys, PositionTerms(insts, rates, l, marks), PositionTerms(insts, rates, now, marks), s);
    if s !in l.positions {
      NothingIsWorthless(insts[s], marks[s]);
    }
    ValueAdds(WorthAt(insts[s], l, s, marks[s]), gain, RateOrPar(AccountingCurrency(insts[s]), rates));
  }

  // ---------------------------------------------------------------- trading at the mark changes nothing

  lemma SpotTrade(q: real, f: Fill)
    ensures (q + f.Signed()) * f.price - q * f.price == f.Factor() * (f.qty * f.price)
  {
    Distribute(q, f.Signed(), f.price);
  }

  lemma LinearTrade(i: Instrument, q: real, f: Fill)
    ensures (q + f.Signed()) * i.contractValue * f.price - q * i.contractValue * f.price
            == f.Factor() * (f.qty * i.contractValue * f.price)
  {
    Distribute(q, f.Signed(), i.contractValue);
    Distribute(q * i.contractValue, f.Signed() * i.contractValue, f.price);
  }

  lemma CoinsAdd(i: Instrument, a: real, b: real, price: real)
    requires price > 0.0
    ensures Coins(i, a + b, price) == Coins(i, a, price) + Coins(i, b, price)
  {
    Distribute(a, b, i.contractValue);
    DivideSum(a * i.contractValue, b * i.contractValue, price);
  }

  lemma DivideSum(x: real, y: real, z: real)
    requires z != 0.0
    ensures (x + y) / z == x / z + y / z
  {
  }

  lemma TradeAtMark(i: Instrument, q: real, coin: real, f: Fill)
    requires f.price > 0.0
    ensures if i.kind.IsInverse()
            then Worth(i, q + f.Signed(), coin + Coins(i, f.Signed(), f.price), f.price) == Worth(i, q, coin, f.price)
            else Worth(i, q + f.Signed(), coin, f.price) == Worth(i, q, coin, f.price) + Price(i, f)
  {
    if i.kind.Spot? {
      SpotTrade(q, f);
    } else if i.kind.IsInverse() {
      CoinsAdd(i, q, f.Signed(), f.price);
    } else {
      LinearTrade(i, q, f);
    }
  }

  function Traded(i: Instrument, l: Ledger, f: Fill): Ledger
    requires f.price > 0.0
  {
    Paid(i, Positioned(i, l, f), f)
  }

  /** What trading writes. */
  lemma TradedEntries(i: Instrument, l: Ledger, f: Fill)
    requires f.price > 0.0 && CoinsKept(l)
    ensures var now := Traded(i, l, f);
            && CoinsKept(now) && DiffersAt(l, now, f.symbol)
            && Get(now.positions, f.symbol) == Get(l.positions, f.symbol) + f.Signed()
            && (if i.kind.IsInverse() then
                  now.cash == l.cash && Get(now.coin, f.symbol) == Get(l.coin, f.symbol) + Coins(i, f.Signed(), f.price)
                else now.coin == l.coin && now.cash == AddTo(l.cash, AccountingCurrency(i), -Price(i, f)))
  {
    hide NewAvg, Coins, AccountingCurrency, Price, Fill.Signed;
  }

  /** An entry of worth `x` at symbol `s` against `-x` in its accounting currency leaves equity alone. */
  lemma EntriesCancel(insts: Instruments, rates: Rates, l: Ledger, now: Ledger, marks: Marks, s: Symbol, x: real)
    requires CoinsKept(l) && DiffersAt(l, now, s) && s in insts && s in marks && marks[s] > 0.0
    requires WorthAt(insts[s], now, s, marks[s]) == WorthAt(insts[s], l, s, marks[s]) + x
    requires now.cash == AddTo(l.cash, AccountingCurrency(insts[s]), -x) || (x == 0.0 && now.cash == l.cash)
    ensures EquityUsd(insts, rates, now, marks) == EquityUsd(insts, rates, l, marks)
  {
    hide WorthAt, RateOrPar, AccountingCurrency, CashUsd, PositionsUsd, Value, AddTo, CoinsKept, DiffersAt;
    var c := AccountingCurrency(insts[s]);
    ValueAdds(0.0, x, RateOrPar(c, rates));
    PositionEntry(insts, rates, l, now, marks, s, x);
    CashEntry(rates, l.cash, c, -x);
  }

  lemma TradeKeepsEquity(insts: Instruments, rates: Rates, l: Ledger, f: Fill, marks: Marks)
    requires CoinsKept(l) && Accepted(insts, f) && f.symbol in marks && marks[f.symbol] == f.price
    ensures CoinsKept(Traded(insts[f.symbol], l, f))
    ensures EquityUsd(insts, rates, Traded(insts[f.symbol], l, f), marks) == EquityUsd(insts, rates, l, marks)
  {
    hide Worth, Traded, AccountingCurrency, Coins, EquityUsd, Price, Fill.Signed, AddTo, Blank, DiffersAt, CoinsKept;
    var i := insts[f.symbol];
    TradedEntries(i, l, f);
    TradeAtMark(i, Get(l.positions, f.symbol), Get(l.coin, f.symbol), f);
    EntriesCancel(insts, rates, l, Traded(i, l, f), marks, f.symbol, if i.kind.IsInverse() then 0.0 else Price(i, f));
  }

  // ---------------------------------------------------------------- fees

  /** An entry of worth `x` at symbol `s` alone, cash untouched. */
  lemma EntryCounts(insts: Instruments, rates: Rates, l: Ledger, now: Ledger, marks: Marks, s: Symbol, x: real)
    requires CoinsKept(l) && DiffersAt(l, now, s) && now.cash == l.cash && s in insts && s in marks && marks[s] > 0.0
    requires WorthAt(insts[s], now, s, marks[s]) == WorthAt(insts[s], l, s, marks[s]) + x
    ensures EquityUsd(insts, rates, now, marks)
            == EquityUsd(insts, rates, l, marks) + Value(x, RateOrPar(AccountingCurrency(insts[s]), rates))
  {
    hide WorthAt, RateOrPar, AccountingCurrency, CashUsd, PositionsUsd, Value, CoinsKept, DiffersAt;
    PositionEntry(insts, rates, l, now, marks, s, x);
  }

  lemma CashCounts(insts: Instruments, rates: Rates, l: Ledger, now: Ledger, marks: Marks, c: Currency, x: real)
    requires now.positions == l.positions && now.coin == l.coin && now.cash == AddTo(l.cash, c, x)
    ensures EquityUsd(insts, rates, now, marks) == EquityUsd(insts, rates, l, marks) + Value(x, RateOrPar(c, rates))
  {
    hide RateOrPar, CashUsd, Value, AddTo, PositionUsd;
    CashEntry(rates, l.cash, c, x);
    SumSame(l.positions.Keys, PositionTerms(insts, rates, l, marks), PositionTerms(insts, rates, now, marks)) by {
      forall s | s in l.positions.Keys
        ensures PositionTerms(insts, rates, l, marks)(s) == PositionTerms(insts, rates, now, marks)(s)
      {
        SamePosition(insts, rates, l, now, marks, s);
      }
    }
  }

  lemma SamePosition(insts: Instruments, rates: Rates, l: Ledger, now: Ledger, marks: Marks, s: Symbol)
    requires now.positions == l.positions && now.coin == l.coin
    ensures PositionUsd(insts, rates, l, marks, s) == PositionUsd(insts, rates, now, marks, s)
  {
  }

  lemma EquityIgnoresTotals(insts: Instruments, rates: Rates, l: Ledger, now: Ledger, marks: Marks)
    requires now.positions == l.positions && now.coin == l.coin && now.cash == l.cash
    ensures EquityUsd(insts, rates, now, marks) == EquityUsd(insts, rates, l, marks)
  {
    forall s | s in l.positions.Keys
      ensures PositionTerms(insts, rates, l, marks)(s) == PositionTerms(insts, rates, now, marks)(s)
    {
      SamePosition(insts, rates, l, now, marks, s);
    }
    hide PositionUsd;
    SumSame(l.positions.Keys, PositionTerms(insts, rates, l, marks), PositionTerms(insts, rates, now, marks));
  }

  lemma CoinWorth(i: Instrument, q: real, coin: real, x: real, price: real)
    requires price > 0.0 && i.kind.IsInverse()
    ensures Worth(i, q, coin + x, price) == Worth(i, q, coin, price) + x * price
  {
    Distribute(coin - Coins(i, q, price), x, price);
  }

  lemma EstimatedFeeCounts(insts: Instruments, rates: Rates, l: Ledger, f: Fill, marks: Marks)
    requires CoinsKept(l) && Accepted(insts, f) && f.fee.None? && f.symbol in l.positions
    requires f.symbol in marks && marks[f.symbol] == f.price
    ensures var (i, now) := (insts[f.symbol], EstimatedFee(insts[f.symbol], l, f));
            && CoinsKept(now) && now.positions.Keys == l.positions.Keys
            && EquityUsd(insts, rates, now, marks) == EquityUsd(insts, rates, l, marks) - FeeCost(i, f, rates)
  {
    hide EstimatedCost, RateOrPar, AccountingCurrency, EquityUsd, Value, Blank, Worth;
    var i, now := insts[f.symbol], EstimatedFee(insts[f.symbol], l, f);
    var cost, r := EstimatedCost(i, f), RateOrPar(AccountingCurrency(i), rates);
    ValueAdds(0.0, cost, r);
    if i.kind.IsInverse() {
      CoinWorth(i, Get(l.positions, f.symbol), Get(l.coin, f.symbol), -(cost / f.price), f.price);
      assert -(cost / f.price) * f.price == -cost;
      assert l.positions.Keys + {f.symbol} == l.positions.Keys;
      EntryCounts(insts, rates, l, now, marks, f.symbol, -cost);
    } else {
      CashCounts(insts, rates, l, now, marks, AccountingCurrency(i), -cost);
    }
  }

  /** The rate at which the ledger values an exchange-reported fee once it is booked. */
  function BookedRate(i: Instrument, fee: Fee, price: real, rates: Rates): real {
    if FeeSideOf(i, fee.currency).ToCash? then RateOrPar(Normalize(fee.currency), rates)
    else price * RateOrPar(AccountingCurrency(i), rates)
  }

  lemma SpotWorth(i: Instrument, q: real, coin: real, x: real, price: real)
    requires price > 0.0 && i.kind.Spot?
    ensures Worth(i, q + x, coin, price) == Worth(i, q, coin, price) + x * price
  {
    Distribute(q, x, price);
  }

  lemma ValueOfProduct(a: real, p: real, r: real)
    ensures Value(a * p, r) == Value(a, p * r)
  {
  }

  lemma ExactFeeCounts(insts: Instruments, rates: Rates, l: Ledger, s: Symbol, fee: Fee, price: real, marks: Marks)
    requires CoinsKept(l) && s in insts && s in l.positions && s in marks && marks[s] == price > 0.0
    ensures var (i, now) := (insts[s], ExactFee(insts[s], l, s, fee));
            && CoinsKept(now) && now.positions.Keys == l.positions.Keys
            && EquityUsd(insts, rates, now, marks)
               == EquityUsd(insts, rates, l, marks) + Value(fee.amount, BookedRate(i, fee, price, rates))
  {
    hide RateOrPar, AccountingCurrency, EquityUsd, Value, Blank, Worth, Normalize;
    var i, now := insts[s], ExactFee(insts[s], l, s, fee);
    assert l.positions.Keys + {s} == l.positions.Keys;
    var r := RateOrPar(AccountingCurrency(i), rates);
    BookedAtMark(i, fee, price, rates);
    hide BookedRate;
    match FeeSideOf(i, fee.currency) {
      case ToPosition =>
        SpotWorth(i, Get(l.positions, s), Get(l.coin, s), fee.amount, price);
        EntryCounts(insts, rates, l, now, marks, s, fee.amount * price);
      case ToCoin =>
        CoinWorth(i, Get(l.positions, s), Get(l.coin, s), fee.amount, price);
        EntryCounts(insts, rates, l, now, marks, s, fee.amount * price);
      case ToCash =>
        BookedInCash(i, fee, price, rates);
        CashCounts(insts, rates, l, now, marks, Normalize(fee.currency), fee.amount);
    }
  }

  lemma BookedAtMark(i: Instrument, fee: Fee, price: real, rates: Rates)
    ensures !FeeSideOf(i, fee.currency).ToCash? ==>
              Value(fee.amount * price, RateOrPar(AccountingCurrency(i), rates))
              == Value(fee.amount, BookedRate(i, fee, price, rates))
  {
    hide RateOrPar, AccountingCurrency, FeeSideOf;
    ValueOfProduct(fee.amount, price, RateOrPar(AccountingCurrency(i), rates));
  }

  lemma BookedInCash(i: Instrument, fee: Fee, price: real, rates: Rates)
    requires FeeSideOf(i, fee.currency).ToCash?
    ensures BookedRate(i, fee, price, rates) == RateOrPar(Normalize(fee.currency), rates)
  {
  }

  predicate IsBase(i: Instrument, c: Currency) {
    !Blank(i.base) && Normalize(c) == Normalize(i.base)
  }

  /** Booked as one currency, costed as another: a linear fee in the base, or an inverse fee not in the base. */
  predicate Miscosted(i: Instrument, c: Currency) {
    || (i.kind.IsLinear() && IsBase(i, c))
    || (i.kind.IsInverse() && !Blank(i.settle) && Normalize(c) == Normalize(i.settle) && !IsBase(i, c))
  }

  /** When the fee cost matches what the ledger loses: the usual cases, or a rate equal to the instrument's price. */
  predicate FeeAttributed(i: Instrument, fee: Fee, price: real, rates: Rates) {
    || fee.amount == 0.0
    || !Miscosted(i, fee.currency)
    || RateOrPar(Normalize(fee.currency), rates) == price * RateOrPar(Normalize(i.quote), rates)
  }

  lemma RatesAgree(i: Instrument, fee: Fee, price: real, rates: Rates)
    ensures FeeAttributed(i, fee, price, rates) <==>
            fee.amount == 0.0 || BookedRate(i, fee, price, rates) == FeeRate(i, fee.currency, price, rates)
  {
    hide RateOrPar, Normalize, Blank;
  }

  lemma SameValue(a: real, r: real, q: real)
    ensures Value(a, r) == Value(a, q) <==> a == 0.0 || r == q
  {
  }

  /** The equity a fill at the mark loses is its fee cost, for every estimated fee and exactly the attributed exact fees. */
  lemma FillAttribution(insts: Instruments, rates: Rates, l: Ledger, f: Fill, marks: Marks)
    requires CoinsKept(l) && Accepted(insts, f) && f.symbol in marks && marks[f.symbol] == f.price
    ensures var now := ApplyFill(insts, rates, l, f);
            && CoinsKept(now) && now.positions.Keys == l.positions.Keys + {f.symbol}
            && now.totals.fundingPnl == l.totals.fundingPnl
            && (EquityUsd(insts, rates, now, marks) - EquityUsd(insts, rates, l, marks)
                == -(now.totals.feeCost - l.totals.feeCost)
                <==> (f.fee.Some? ==> FeeAttributed(insts[f.symbol], f.fee.value, f.price, rates)))
  {
    hide EquityUsd, ExactFee, EstimatedFee, NewAvg, Value, FeeAttributed, BookedRate, FeeRate, Blank, EstimatedCost,
         RateOrPar, ConversionFailed, AccountingCurrency, Notional;
    var i, now := insts[f.symbol], ApplyFill(insts, rates, l, f);
    var t := Traded(i, l, f);
    var u := Charged(i, t, f);
    TradeKeepsEquity(insts, rates, l, f, marks);
    EquityIgnoresTotals(insts, rates, u, now, marks);
    if f.fee.Some? {
      var fee := f.fee.value;
      ExactFeeCounts(insts, rates, t, f.symbol, fee, f.price, marks);
      RatesAgree(i, fee, f.price, rates);
      var cost := if fee.amount == 0.0 then 1.0 else FeeRate(i, fee.currency, f.price, rates);
      SameValue(fee.amount, BookedRate(i, fee, f.price, rates), cost);
      ValueAdds(0.0, fee.amount, cost);
    } else {
      EstimatedFeeCounts(insts, rates, t, f, marks);
    }
  }

  // ---------------------------------------------------------------- funding and market moves

  lemma FundingAttribution(insts: Instruments, rates: Rates, l: Ledger, s: Symbol, rate: real, mark: real, marks: Marks)
    requires CoinsKept(l) && Fundable(insts, l, s, mark) && s in marks && marks[s] == mark
    ensures var now := ApplyFunding(insts, rates, l, s, rate, mark);
            && CoinsKept(now) && now.positions == l.positions && now.totals.feeCost == l.totals.feeCost
            && EquityUsd(insts, rates, now, marks) - EquityUsd(insts, rates, l, marks)
               == now.totals.fundingPnl - l.totals.fundingPnl
  {
    hide RateOrPar, AccountingCurrency, EquityUsd, Value, Worth, FundingCoins, FundingCost;
    var i, q, now := insts[s], Get(l.positions, s), ApplyFunding(insts, rates, l, s, rate, mark);
    assert l.positions.Keys + {s} == l.positions.Keys;
    if i.kind.IsInverse() {
      CoinFunding(i, q, Get(l.coin, s), rate, mark);
      EntryCounts(insts, rates, l, now, marks, s, -FundingCost(i, q, rate, mark));
    } else {
      CashCounts(insts, rates, l, now, marks, AccountingCurrency(i), -FundingCost(i, q, rate, mark));
    }
  }

  lemma CoinFunding(i: Instrument, q: real, coin: real, rate: real, mark: real)
    requires mark > 0.0 && i.kind.IsInverse()
    ensures Worth(i, q, coin - FundingCoins(i, q, rate, mark), mark)
            == Worth(i, q, coin, mark) - FundingCost(i, q, rate, mark)
  {
    hide Worth, FundingCoins;
    CoinWorth(i, q, coin, -FundingCoins(i, q, rate, mark), mark);
    assert coin - FundingCoins(i, q, rate, mark) == coin + -FundingCoins(i, q, rate, mark);
  }

  /** How much a position gains per unit of its mark: coins for an inverse instrument, quantity otherwise. */
  function Exposure(i: Instrument, qty: real, coin: real): real {
    if i.kind.Spot? then qty else if i.kind.IsInverse() then coin else qty * i.contractValue
  }

  function Gain(exposure: real, from: real, to: real): real {
    exposure * (to - from)
  }

  lemma MoveWorth(i: Instrument, qty: real, coin: real, from: real, to: real)
    requires from > 0.0 && to > 0.0
    ensures Worth(i, qty, coin, to) == Worth(i, qty, coin, from) + Gain(Exposure(i, qty, coin), from, to)
  {
    if i.kind.IsInverse() {
      CoinsTimesMark(i, qty, coin, from);
      CoinsTimesMark(i, qty, coin, to);
    }
  }

  lemma CoinsTimesMark(i: Instrument, qty: real, coin: real, mark: real)
    requires mark > 0.0
    ensures (coin - Coins(i, qty, mark)) * mark == coin * mark - qty * i.contractValue
  {
    Distribute(coin, -Coins(i, qty, mark), mark);
  }

  function MovePnl(insts: Instruments, rates: Rates, l: Ledger, marks: Marks, s: Symbol, price: real): real {
    if s !in insts || s !in l.positions || s !in marks then 0.0
    else Value(Gain(Exposure(insts[s], Get(l.positions, s), Get(l.coin, s)), marks[s], price),
               RateOrPar(AccountingCurrency(insts[s]), rates))
  }

  lemma MoveAttribution(insts: Instruments, rates: Rates, l: Ledger, marks: Marks, s: Symbol, price: real)
    requires CoinsKept(l) && price > 0.0 && l.positions.Keys <= marks.Keys && PositiveMarks(marks)
    ensures EquityUsd(insts, rates, l, marks[s := price]) - EquityUsd(insts, rates, l, marks)
            == MovePnl(insts, rates, l, marks, s, price)
  {
    hide RateOrPar, AccountingCurrency, Value, Worth, Exposure, CashUsd, Gain;
    var now := marks[s := price];
    if s in l.positions {
      SumChange(l.positions.Keys, PositionTerms(insts, rates, l, marks), PositionTerms(insts, rates, l, now), s);
      assert l.positions.Keys + {s} == l.positions.Keys;
      if s in insts {
        var i, q, c := insts[s], Get(l.positions, s), Get(l.coin, s);
        var r := RateOrPar(AccountingCurrency(i), rates);
        MoveWorth(i, q, c, marks[s], price);
        ValueAdds(Worth(i, q, c, marks[s]), Gain(Exposure(i, q, c), marks[s], price), r);
      }
    } else {
      SumSame(l.positions.Keys, PositionTerms(insts, rates, l, marks), PositionTerms(insts, rates, l, now));
    }
  }

  // ---------------------------------------------------------------- whole runs

  datatype Event =
    | Trade(fill: Fill)
    | Funding(symbol: Symbol, rate: real, mark: real)
    | Move(symbol: Symbol, price: real)

  datatype Account = Account(l: Ledger, marks: Marks)

  function Step(insts: Instruments, rates: Rates, a: Account, e: Event): Account {
    match e
    case Trade(f) => a.(l := ApplyFill(insts, rates, a.l, f))
    case Funding(s, rate, mark) => a.(l := ApplyFunding(insts, rates, a.l, s, rate, mark))
    case Move(s, price) => a.(marks := a.marks[s := price])
  }

  /** The event's symbol is marked at the event's price, and an exact fee is in a currency the cost follows. */
  predicate Admissible(insts: Instruments, rates: Rates, a: Account, e: Event) {
    match e
    case Trade(f) =>
      Accepted(insts, f) ==>
        && f.symbol in a.marks && a.marks[f.symbol] == f.price
        && (f.fee.Some? ==> FeeAttributed(insts[f.symbol], f.fee.value, f.price, rates))
    case Funding(s, _, mark) => Fundable(insts, a.l, s, mark) ==> s in a.marks && a.marks[s] == mark
    case Move(_, price) => price > 0.0
  }

  predicate Kept(a: Account) {
    CoinsKept(a.l) && a.l.positions.Keys <= a.marks.Keys && PositiveMarks(a.marks)
  }

  function Pnl(insts: Instruments, rates: Rates, a: Account, e: Event): real {
    if e.Move? then MovePnl(insts, rates, a.l, a.marks, e.symbol, e.price) else 0.0
  }

  lemma StepAttribution(insts: Instruments, rates: Rates, a: Account, e: Event)
    requires Kept(a) && Admissible(insts, rates, a, e)
    ensures var b := Step(insts, rates, a, e);
            && Kept(b)
            && EquityUsd(insts, rates, b.l, b.marks) - EquityUsd(insts, rates, a.l, a.marks)
               == Pnl(insts, rates, a, e) + (b.l.totals.fundingPnl - a.l.totals.fundingPnl)
                  - (b.l.totals.feeCost - a.l.totals.feeCost)
  {
    hide EquityUsd, FeeAttributed, MovePnl, Blank;
    var b := Step(insts, rates, a, e);
    match e {
      case Trade(f) =>
        if f.qty > 0.0 && Accepted(insts, f) {
          hide ApplyFill;
          FillAttribution(insts, rates, a.l, f, a.marks);
        } else {
          EquityIgnoresTotals(insts, rates, a.l, b.l, a.marks);
        }
      case Funding(s, rate, mark) =>
        if Fundable(insts, a.l, s, mark) {
          FundingAttribution(insts, rates, a.l, s, rate, mark, a.marks);
        }
      case Move(s, price) => MoveAttribution(insts, rates, a.l, a.marks, s, price);
    }
  }

  function Run(insts: Instruments, rates: Rates, a: Account, events: seq<Event>): Account
    decreases |events|
  {
    if events == [] then a else Run(insts, rates, Step(insts, rates, a, events[0]), events[1..])
  }

  predicate AllAdmissible(insts: Instruments, rates: Rates, a: Account, events: seq<Event>)
    decreases |events|
  {
    events == [] ||
    (Admissible(insts, rates, a, events[0]) && AllAdmissible(insts, rates, Step(insts, rates, a, events[0]), events[1..]))
  }

  function MarketPnl(insts: Instruments, rates: Rates, a: Account, events: seq<Event>): real
    decreases |events|
  {
    if events == [] then 0.0
    else Pnl(insts, rates, a, events[0]) + MarketPnl(insts, rates, Step(insts, rates, a, events[0]), events[1..])
  }

  /** Over any run, the change in equity is market gains plus funding received minus fees paid. */
  lemma {:induction false} RunAttribution(insts: Instruments, rates: Rates, a: Account, events: seq<Event>)
    requires Kept(a) && AllAdmissible(insts, rates, a, events)
    ensures var b := Run(insts, rates, a, events);
            && Kept(b)
            && EquityUsd(insts, rates, b.l, b.marks) - EquityUsd(insts, rates, a.l, a.marks)
               == MarketPnl(insts, rates, a, events) + (b.l.totals.fundingPnl - a.l.totals.fundingPnl)
                  - (b.l.totals.feeCost - a.l.totals.feeCost)
    decreases |events|
  {
    hide EquityUsd, Step, Admissible, Pnl, Kept;
    if events != [] {
      StepAttribution(insts, rates, a, events[0]);
      RunAttribution(insts, rates, Step(insts, rates, a, events[0]), events[1..]);
    }
  }

  /** A linear swap charged its fee in the base coin, at a rate that is not its price, is costed wrongly. */
  lemma MiscostedFeeExample()
    ensures var i := Instrument(LinearSwap, "BTC", "USDT", "USDT", 1.0, 0.0, 0.0);
            var (insts, rates) := (map["S" := i], map["BTC" := 50.0, "USDT" := 1.0]);
            var f := Fill("S", true, 1.0, 100.0, Some(Fee(-1.0, "BTC")), None);
            var (now, marks) := (ApplyFill(insts, rates, EMPTY, f), map["S" := 100.0]);
            EquityUsd(insts, rates, now, marks) - EquityUsd(insts, rates, EMPTY, marks)
            != -(now.totals.feeCost - EMPTY.totals.feeCost)
  {
    var i := Instrument(LinearSwap, "BTC", "USDT", "USDT", 1.0, 0.0, 0.0);
    var insts, rates := map["S" := i], map["BTC" := 50.0, "USDT" := 1.0];
    var f := Fill("S", true, 1.0, 100.0, Some(Fee(-1.0, "BTC")), None);
    assert Normalize("BTC") == "BTC" && Normalize("USDT") == "USDT";
    assert !FeeAttributed(i, f.fee.value, f.price, rates);
    hide EquityUsd, FeeAttributed, ApplyFill;
    FillAttribution(insts, rates, EMPTY, f, map["S" := 100.0]);
  }
}
