/** Closing a backtest account into an opening snapshot and reopening from it keeps the account's value. */
module PortfolioSettle {
  import opened Common
  import opened Sums
  import opened Keys
  import opened Portfolio
  import opened PortfolioAttribution
  import opened PortfolioBasis

  // ---------------------------------------------------------------- opening snapshots

  datatype MarginMode = Cross | Isolated

  datatype Balance = Balance(
    currency: Currency,
    total: real,
    available: Option<real>,
    equity: Option<real>,
    liability: Option<real>,
    maxLoan: Option<real>,
    valuation: Option<Symbol>)

  datatype Position = Position(symbol: Symbol, qty: real, avgPrice: real, mode: Option<MarginMode>)

  datatype Margin = Margin(
    ratio: Option<real>,
    exchangeRatio: Option<real>,
    adjustedEquity: Option<real>,
    notional: Option<real>)

  datatype Initial = Initial(account: Option<string>, balances: seq<Balance>, positions: seq<Position>, margin: Margin)

  predicate PositionOk(p: Position) {
    p.qty != 0.0 ==> p.avgPrice > 0.0
  }

  function OpenBalance(l: Ledger, b: Balance): Ledger {
    if b.valuation.Some? then
      l.(positions := l.positions[b.valuation.value := b.total], avg := l.avg[b.valuation.value := 0.0])
    else l.(cash := AddTo(l.cash, b.currency, b.total))
  }

  function OpenBalances(l: Ledger, balances: seq<Balance>): Ledger
    decreases |balances|
  {
    if balances == [] then l else OpenBalances(OpenBalance(l, balances[0]), balances[1..])
  }

  function OpenPosition(insts: Instruments, l: Ledger, p: Position): Ledger
    requires PositionOk(p)
  {
    if p.symbol !in insts then l
    else
      var i := insts[p.symbol];
      var placed := l.(positions := l.positions[p.symbol := p.qty], avg := l.avg[p.symbol := p.avgPrice]);
      if p.qty == 0.0 then placed
      else if i.kind.IsInverse() then placed.(coin := l.coin[p.symbol := Coins(i, p.qty, p.avgPrice)])
      else placed.(cash := AddTo(l.cash, AccountingCurrency(i), -Cost(i, p.qty, p.avgPrice)))
  }

  function Cost(i: Instrument, qty: real, price: real): real {
    qty * i.contractValue * price
  }

  predicate PositionsOk(positions: seq<Position>) {
    forall k :: 0 <= k < |positions| ==> PositionOk(positions[k])
  }

  function OpenPositions(insts: Instruments, l: Ledger, positions: seq<Position>): Ledger
    requires PositionsOk(positions)
    decreases |positions|
  {
    if positions == [] then l else OpenPositions(insts, OpenPosition(insts, l, positions[0]), positions[1..])
  }

  /** The ledger a snapshot opens. */
  function WithInitial(insts: Instruments, initial: Initial): Ledger
    requires PositionsOk(initial.positions)
  {
    OpenPositions(insts, OpenBalances(EMPTY, initial.balances), initial.positions)
  }

  // ---------------------------------------------------------------- native equity at marks

  function ValidMark(marks: Marks, s: Symbol): Option<real> {
    if s in marks && marks[s] > 0.0 then Some(marks[s]) else None
  }

  /** What one symbol's entries are worth in currency `c` at its mark. */
  function EquityIn(i: Instrument, qty: real, coin: real, mark: real, c: Currency): real {
    if i.kind.Spot? then (if Normalize(i.base) == c then qty else 0.0)
    else if Settlement(i) != c || mark <= 0.0 then 0.0
    else if i.kind.IsInverse() then (if qty == 0.0 && coin == 0.0 then 0.0 else coin - Coins(i, qty, mark))
    else Cost(i, qty, mark)
  }

  function EquityOf(insts: Instruments, l: Ledger, c: Currency, marks: Marks, s: Symbol): real {
    if s !in insts then 0.0
    else EquityIn(insts[s], Get(l.positions, s), Get(l.coin, s), Get(marks, s), c)
  }

  function EquityTerms(insts: Instruments, l: Ledger, c: Currency, marks: Marks): Symbol -> real {
    s => EquityOf(insts, l, c, marks, s)
  }

  ghost function EquityValue(insts: Instruments, l: Ledger, c: Currency, marks: Marks): real {
    Get(l.cash, c) + SumOver(l.positions.Keys, EquityTerms(insts, l, c, marks))
  }

  predicate NeedsMark(i: Instrument, qty: real, coin: real) {
    !i.kind.Spot? && (qty != 0.0 || (i.kind.IsInverse() && coin != 0.0))
  }

  predicate ValuedIn(insts: Instruments, l: Ledger, c: Currency, marks: Marks, s: Symbol) {
    && s in insts
    && (NeedsMark(insts[s], Get(l.positions, s), Get(l.coin, s)) && Settlement(insts[s]) == c ==> ValidMark(marks, s).Some?)
  }

  /** Native equity of a normalized currency, if every symbol is known and every mark it needs is valid. */
  ghost function AccountEquity(insts: Instruments, l: Ledger, c: Currency, marks: Marks): Option<real> {
    if forall s :: s in l.positions ==> ValuedIn(insts, l, c, marks, s) then Some(EquityValue(insts, l, c, marks)) else None
  }

  // ---------------------------------------------------------------- how opening entries count

  lemma EquityEntry(insts: Instruments, l: Ledger, now: Ledger, s: Symbol, c: Currency, marks: Marks)
    requires BookDiffersAt(l, now, s) && s in insts && s !in l.positions
    ensures EquityValue(insts, now, c, marks) - EquityValue(insts, l, c, marks)
            == Get(now.cash, c) - Get(l.cash, c) + EquityOf(insts, now, c, marks, s)
  {
    hide EquityIn;
    SumChange(l.positions.Keys, EquityTerms(insts, l, c, marks), EquityTerms(insts, now, c, marks), s);
  }

  lemma CashOnly(insts: Instruments, l: Ledger, now: Ledger, c: Currency, marks: Marks)
    requires now.positions == l.positions && now.coin == l.coin
    ensures EquityValue(insts, now, c, marks) - EquityValue(insts, l, c, marks) == Get(now.cash, c) - Get(l.cash, c)
  {
    hide EquityIn;
    SumSame(l.positions.Keys, EquityTerms(insts, l, c, marks), EquityTerms(insts, now, c, marks));
  }

  /** A balance names a normalized currency; if it is spot inventory, that is the base of the instrument it names. */
  predicate BalanceOk(insts: Instruments, b: Balance) {
    && Normalize(b.currency) == b.currency
    && (b.valuation.Some? ==>
          b.valuation.value in insts && insts[b.valuation.value].kind.Spot? && insts[b.valuation.value].base == b.currency)
  }

  predicate BalancesOk(insts: Instruments, balances: seq<Balance>) {
    && (forall k :: 0 <= k < |balances| ==> BalanceOk(insts, balances[k]))
    && (forall j, k :: 0 <= j < k < |balances| ==> balances[j].currency != balances[k].currency)
  }

  lemma OpenBalanceCounts(insts: Instruments, l: Ledger, b: Balance, c: Currency, marks: Marks)
    requires BalanceOk(insts, b) && (b.valuation.Some? ==> b.valuation.value !in l.positions)
    ensures EquityValue(insts, OpenBalance(l, b), c, marks) - EquityValue(insts, l, c, marks)
            == if b.currency == c then b.total else 0.0
  {
    hide EquityValue, Normalize, Settlement;
    if b.valuation.Some? {
      EquityEntry(insts, l, OpenBalance(l, b), b.valuation.value, c, marks);
    } else {
      CashOnly(insts, l, OpenBalance(l, b), c, marks);
    }
  }

  lemma OpenPositionCounts(insts: Instruments, l: Ledger, p: Position, c: Currency, marks: Marks)
    requires PositionOk(p) && p.symbol in insts && !insts[p.symbol].kind.Spot? && p.symbol !in l.positions
             && CoinsKept(l)
    requires p.qty != 0.0 ==> ValidMark(marks, p.symbol) == Some(p.avgPrice)
    ensures CoinsKept(OpenPosition(insts, l, p))
    ensures EquityValue(insts, OpenPosition(insts, l, p), c, marks) == EquityValue(insts, l, c, marks)
  {
    hide EquityValue, AccountingCurrency, CoinCurrency, Normalize, Coins;
    var i, now := insts[p.symbol], OpenPosition(insts, l, p);
    EquityEntry(insts, l, now, p.symbol, c, marks);
    NoCost(i, Get(marks, p.symbol));
    hide Cost;
  }

  lemma NoCost(i: Instrument, mark: real)
    ensures Cost(i, 0.0, mark) == 0.0
  {
  }

  // ---------------------------------------------------------------- settling

  datatype SettleError =
    | EquityUnvalued
    | EquityNegative
    | NotionalUnvalued
    | BalanceUnvalued(currency: Currency)
    | BalanceNegative(currency: Currency)
    | NoMarginMode(symbol: Symbol)
    | NoMark(symbol: Symbol)

  datatype Settlements<T> = Settled(value: T) | Refused(error: SettleError)

  /** USD equity is exact when every nonzero cash has a rate and every nonzero position a mark and a rate. */
  predicate Valuable(insts: Instruments, rates: Rates, l: Ledger, marks: Marks) {
    CashRated(rates, l.cash) && HeldValuable(insts, rates, l, marks)
  }

  predicate CashRated(rates: Rates, cash: map<Currency, real>) {
    forall c :: c in cash && cash[c] != 0.0 ==> RateChecked(c, rates).Some?
  }

  predicate HeldValuable(insts: Instruments, rates: Rates, l: Ledger, marks: Marks) {
    forall s :: s in l.positions ==> PositionValuable(insts, rates, l, marks, s)
  }

  predicate PositionValuable(insts: Instruments, rates: Rates, l: Ledger, marks: Marks, s: Symbol) {
    && s in insts
    && (Get(l.positions, s) != 0.0 || (insts[s].kind.IsInverse() && Get(l.coin, s) != 0.0) ==>
          ValidMark(marks, s).Some? && RateChecked(AccountingCurrency(insts[s]), rates).Some?)
  }

  ghost function EquityChecked(insts: Instruments, rates: Rates, l: Ledger, marks: Marks): Option<real> {
    if Valuable(insts, rates, l, marks) then Some(EquityUsd(insts, rates, l, marks)) else None
  }

  predicate NotionalValuable(insts: Instruments, rates: Rates, l: Ledger, marks: Marks, s: Symbol) {
    && s in insts
    && (!insts[s].kind.Spot? && Get(l.positions, s) != 0.0 ==>
          && (insts[s].kind.IsInverse() || ValidMark(marks, s).Some?)
          && RateChecked(AccountingCurrency(insts[s]), rates).Some?)
  }

  function NotionalUsdOf(insts: Instruments, rates: Rates, l: Ledger, marks: Marks, s: Symbol): real {
    if s !in insts || insts[s].kind.Spot? then 0.0
    else Value(Abs(Notional(insts[s], Get(l.positions, s), Get(marks, s))), RateOrPar(AccountingCurrency(insts[s]), rates))
  }

  function NotionalTerms(insts: Instruments, rates: Rates, l: Ledger, marks: Marks): Symbol -> real {
    s => NotionalUsdOf(insts, rates, l, marks, s)
  }

  ghost function NotionalChecked(insts: Instruments, rates: Rates, l: Ledger, marks: Marks): Option<real> {
    if forall s :: s in l.positions ==> NotionalValuable(insts, rates, l, marks, s)
    then Some(SumOver(l.positions.Keys, NotionalTerms(insts, rates, l, marks))) else None
  }

  function Closing(b: Balance, total: real): Balance {
    b.(total := total, available := Some(total), equity := Some(total), liability := Some(0.0))
  }

  ghost function SettleBalances(insts: Instruments, l: Ledger, balances: seq<Balance>,
                                marks: Marks): Settlements<seq<Balance>> {
    if balances == [] then Settled([])
    else
      var c := balances[0].currency;
      match AccountEquity(insts, l, Normalize(c), marks)
      case None => Refused(BalanceUnvalued(c))
      case Some(total) =>
        if total < 0.0 then Refused(BalanceNegative(c))
        else
          match SettleBalances(insts, l, balances[1..], marks)
          case Refused(e) => Refused(e)
          case Settled(rest) => Settled([Closing(balances[0], total)] + rest)
  }

  /** Margin modes by symbol; a later entry for the same symbol wins. */
  function Modes(positions: seq<Position>): map<Symbol, Option<MarginMode>> {
    if positions == [] then map[]
    else Modes(positions[..|positions| - 1])[positions[|positions| - 1].symbol := positions[|positions| - 1].mode]
  }

  function ModeOf(modes: map<Symbol, Option<MarginMode>>, s: Symbol): Option<MarginMode> {
    if s in modes then modes[s] else None
  }

  /** Derivative positions, in symbol order: every nonzero one, and those the opening snapshot listed. */
  function SettlePositions(insts: Instruments, l: Ledger, syms: seq<Symbol>, modes: map<Symbol, Option<MarginMode>>,
                           marks: Marks)
    : Settlements<seq<Position>>
  {
    if syms == [] then Settled([])
    else
      var (s, rest) := (syms[0], syms[1..]);
      var q := Get(l.positions, s);
      if s !in insts || insts[s].kind.Spot? then SettlePositions(insts, l, rest, modes, marks)
      else if q != 0.0 && ModeOf(modes, s).None? then Refused(NoMarginMode(s))
      else if q == 0.0 && s !in modes then SettlePositions(insts, l, rest, modes, marks)
      else if q != 0.0 && ValidMark(marks, s).None? then Refused(NoMark(s))
      else
        match SettlePositions(insts, l, rest, modes, marks)
        case Refused(e) => Refused(e)
        case Settled(more) =>
          Settled([Position(s, q, if q == 0.0 then 0.0 else Get(marks, s), ModeOf(modes, s))] + more)
  }

  ghost function Settle(insts: Instruments, rates: Rates, l: Ledger, initial: Initial, marks: Marks, leverage: real,
                        cmr: real)
    : Settlements<Initial>
  {
    match EquityChecked(insts, rates, l, marks)
    case None => Refused(EquityUnvalued)
    case Some(equity) =>
      if equity < 0.0 then Refused(EquityNegative)
      else
        match NotionalChecked(insts, rates, l, marks)
        case None => Refused(NotionalUnvalued)
        case Some(notional) =>
          match SettleBalances(insts, l, initial.balances, marks)
          case Refused(e) => Refused(e)
          case Settled(balances) =>
            match SettlePositions(insts, l, SortedKeys(insts.Keys), Modes(initial.positions), marks)
            case Refused(e) => Refused(e)
            case Settled(positions) =>
              Settled(Initial(initial.account, balances, positions, MarginFor(equity, notional, leverage, cmr)))
  }

  function MarginFor(equity: real, notional: real, leverage: real, cmr: real): Margin {
    var ratio := if notional > 0.0 then Some(equity / notional) else None;
    Margin(ratio, if ratio.Some? then Some(ratio.value * leverage * cmr) else None, Some(equity), Some(notional))
  }

  // ---------------------------------------------------------------- what a settled snapshot holds

  /** Settling rewrites each balance's total to its native equity and changes nothing else that matters. */
  lemma {:induction false} SettledBalances(insts: Instruments, l: Ledger, balances: seq<Balance>, marks: Marks)
    requires SettleBalances(insts, l, balances, marks).Settled?
    ensures var done := SettleBalances(insts, l, balances, marks).value;
            && |done| == |balances|
            && forall k :: 0 <= k < |balances| ==>
                 && AccountEquity(insts, l, Normalize(balances[k].currency), marks).Some?
                 && done[k] == Closing(balances[k], EquityValue(insts, l, Normalize(balances[k].currency), marks))
  {
    hide AccountEquity, EquityValue, Normalize;
    if balances != [] {
      SettledBalances(insts, l, balances[1..], marks);
      var done := SettleBalances(insts, l, balances, marks).value;
      EquityWhenValued(insts, l, Normalize(balances[0].currency), marks);
      assert done[1..] == SettleBalances(insts, l, balances[1..], marks).value;
      forall k | 0 <= k < |balances|
        ensures AccountEquity(insts, l, Normalize(balances[k].currency), marks).Some?
        ensures done[k] == Closing(balances[k], EquityValue(insts, l, Normalize(balances[k].currency), marks))
      {
        if k > 0 {
          assert balances[k] == balances[1..][k - 1] && done[k] == done[1..][k - 1];
        }
      }
    }
  }

  /** A settled balance is all available, owes nothing, and keeps its currency, loan limit and inventory symbol. */
  lemma SettledFields(insts: Instruments, l: Ledger, balances: seq<Balance>, marks: Marks, k: nat)
    requires SettleBalances(insts, l, balances, marks).Settled? && k < |balances|
    ensures var done := SettleBalances(insts, l, balances, marks).value;
            && k < |done|
            && var (b, total) := (done[k], EquityValue(insts, l, Normalize(balances[k].currency), marks));
               && b.total == total >= 0.0 && b.available == b.equity == Some(total) && b.liability == Some(0.0)
               && b.currency == balances[k].currency && b.maxLoan == balances[k].maxLoan
               && b.valuation == balances[k].valuation
  {
    hide EquityValue, Normalize, AccountEquity;
    SettledBalances(insts, l, balances, marks);
    SettledTotals(insts, l, balances, marks);
  }

  /** The listed balances settle exactly when each is valued and not negative. */
  lemma {:induction false} BalancesSettleIff(insts: Instruments, l: Ledger, balances: seq<Balance>, marks: Marks)
    ensures SettleBalances(insts, l, balances, marks).Settled? <==>
            forall k :: 0 <= k < |balances| ==>
              var equity := AccountEquity(insts, l, Normalize(balances[k].currency), marks);
              equity.Some? && equity.value >= 0.0
  {
    hide AccountEquity, Normalize;
    if balances != [] {
      BalancesSettleIff(insts, l, balances[1..], marks);
      assert forall k :: 1 <= k < |balances| ==> balances[k] == balances[1..][k - 1];
    }
  }

  /** Positions settle exactly when every open derivative has a margin mode and a usable mark. */
  lemma {:induction false} PositionsSettleIff(insts: Instruments, l: Ledger, syms: seq<Symbol>,
                                              modes: map<Symbol, Option<MarginMode>>, marks: Marks)
    ensures SettlePositions(insts, l, syms, modes, marks).Settled? <==>
            forall s :: s in syms && s in insts && !insts[s].kind.Spot? && Get(l.positions, s) != 0.0 ==>
              ModeOf(modes, s).Some? && ValidMark(marks, s).Some?
  {
    hide Get, ValidMark, ModeOf;
    if syms != [] {
      PositionsSettleIff(insts, l, syms[1..], modes, marks);
      assert forall s :: s in syms <==> s == syms[0] || s in syms[1..];
    }
  }

  /** An account settles exactly when it can be valued, nothing is negative, and open derivatives have modes and marks. */
  lemma SettlesIff(insts: Instruments, rates: Rates, l: Ledger, initial: Initial, marks: Marks, leverage: real,
                   cmr: real)
    ensures Settle(insts, rates, l, initial, marks, leverage, cmr).Settled? <==>
            && Valuable(insts, rates, l, marks) && EquityUsd(insts, rates, l, marks) >= 0.0
            && (forall s :: s in l.positions ==> NotionalValuable(insts, rates, l, marks, s))
            && (forall k :: 0 <= k < |initial.balances| ==>
                  var equity := AccountEquity(insts, l, Normalize(initial.balances[k].currency), marks);
                  equity.Some? && equity.value >= 0.0)
            && (forall s :: s in insts && !insts[s].kind.Spot? && Get(l.positions, s) != 0.0 ==>
                  ModeOf(Modes(initial.positions), s).Some? && ValidMark(marks, s).Some?)
  {
    hide Valuable, EquityUsd, NotionalValuable, AccountEquity, Normalize, SettleBalances, SettlePositions, Modes,
         ModeOf,
         ValidMark, MarginFor, NotionalTerms, SumOver, Get;
    BalancesSettleIff(insts, l, initial.balances, marks);
    PositionsSettleIff(insts, l, SortedKeys(insts.Keys), Modes(initial.positions), marks);
  }

  /** The settled margin: equity over gross notional when there is any, scaled for the exchange. */
  lemma SettledMargin(insts: Instruments, rates: Rates, l: Ledger, initial: Initial, marks: Marks, leverage: real,
                      cmr: real, done: Initial)
    requires Settle(insts, rates, l, initial, marks, leverage, cmr) == Settled(done)
    ensures var (m, equity) := (done.margin, EquityUsd(insts, rates, l, marks));
            var notional := SumOver(l.positions.Keys, NotionalTerms(insts, rates, l, marks));
            && m.adjustedEquity == Some(equity) && m.notional == Some(notional)
            && (m.ratio.Some? <==> notional > 0.0) && (m.exchangeRatio.Some? <==> notional > 0.0)
            && (notional > 0.0 ==>
                  m.ratio.value * notional == equity && m.exchangeRatio.value == m.ratio.value * leverage * cmr)
  {
    hide Valuable, EquityUsd, NotionalValuable, SettleBalances, SettlePositions, Modes, NotionalTerms, SumOver;
  }

  /** Contracts for an inverse instrument, contracts at the mark for a linear one. */
  function ContractSize(i: Instrument, qty: real, mark: real): real {
    if i.kind.IsInverse() then qty * i.contractValue else qty * i.contractValue * mark
  }

  lemma NotionalIsSize(i: Instrument, qty: real, mark: real)
    requires !i.kind.Spot?
    ensures Notional(i, qty, mark) == ContractSize(i, qty, mark)
  {
  }

  /** The gross notional of one symbol: the absolute size of a derivative in USD, and nothing for spot. */
  lemma NotionalOfOne(insts: Instruments, rates: Rates, l: Ledger, marks: Marks, s: Symbol)
    requires s in insts
    ensures var (i, size) := (insts[s], ContractSize(insts[s], Get(l.positions, s), Get(marks, s)));
            NotionalUsdOf(insts, rates, l, marks, s)
            == if i.kind.Spot? then 0.0
               else Value(if size < 0.0 then -size else size, RateOrPar(AccountingCurrency(i), rates))
  {
    hide Value, RateOrPar, AccountingCurrency, Notional, ContractSize;
    if !insts[s].kind.Spot? {
      NotionalIsSize(insts[s], Get(l.positions, s), Get(marks, s));
    }
  }

  lemma EquityWhenValued(insts: Instruments, l: Ledger, c: Currency, marks: Marks)
    ensures AccountEquity(insts, l, c, marks).Some? ==>
              AccountEquity(insts, l, c, marks).value == EquityValue(insts, l, c, marks)
  {
  }

  /** Symbols the snapshot must list: derivatives with a quantity, or listed before. */
  predicate Listed(insts: Instruments, l: Ledger, modes: map<Symbol, Option<MarginMode>>, s: Symbol) {
    s in insts && !insts[s].kind.Spot? && (Get(l.positions, s) != 0.0 || s in modes)
  }

  ghost predicate Describes(insts: Instruments, l: Ledger, modes: map<Symbol, Option<MarginMode>>, marks: Marks,
                            p: Position) {
    && Listed(insts, l, modes, p.symbol)
    && p.qty == Get(l.positions, p.symbol) && p.mode == ModeOf(modes, p.symbol)
    && (p.qty != 0.0 ==> ValidMark(marks, p.symbol) == Some(p.avgPrice))
    && (p.qty == 0.0 ==> p.avgPrice == 0.0)
  }

  ghost predicate DistinctSymbols(positions: seq<Position>) {
    forall j, k :: 0 <= j < k < |positions| ==> positions[j].symbol != positions[k].symbol
  }

  ghost predicate AllDescribe(insts: Instruments, l: Ledger, modes: map<Symbol, Option<MarginMode>>, marks: Marks,
                              positions: seq<Position>) {
    forall k :: 0 <= k < |positions| ==> Describes(insts, l, modes, marks, positions[k])
  }

  predicate Names(positions: seq<Position>, s: Symbol) {
    exists k :: 0 <= k < |positions| && positions[k].symbol == s
  }

  /** A settled position list describes exactly the symbols it must list, each once. */
  lemma {:induction false} SettledPositions(insts: Instruments, l: Ledger, syms: seq<Symbol>,
                                            modes: map<Symbol, Option<MarginMode>>, marks: Marks)
    requires Distinct(syms) && SettlePositions(insts, l, syms, modes, marks).Settled?
    ensures var done := SettlePositions(insts, l, syms, modes, marks).value;
            && AllDescribe(insts, l, modes, marks, done) && DistinctSymbols(done)
            && forall s :: Names(done, s) <==> s in syms && Listed(insts, l, modes, s)
  {
    hide Get, ValidMark;
    if syms != [] {
      var s, rest := syms[0], syms[1..];
      var done := SettlePositions(insts, l, syms, modes, marks).value;
      SettledPositions(insts, l, rest, modes, marks);
      var more := SettlePositions(insts, l, rest, modes, marks).value;
      if Listed(insts, l, modes, s) {
        assert done[1..] == more && done[0].symbol == s;
        DescribesHead(insts, l, modes, marks, done[0]);
        assert !Names(more, s);
        NamesMore(done);
      }
    }
  }

  lemma NamesMore(done: seq<Position>)
    requires done != []
    ensures forall s :: Names(done, s) <==> s == done[0].symbol || Names(done[1..], s)
  {
    forall s ensures Names(done, s) <==> s == done[0].symbol || Names(done[1..], s) {
      if Names(done[1..], s) {
        var k :| 0 <= k < |done[1..]| && done[1..][k].symbol == s;
        assert done[k + 1].symbol == s;
      }
      if Names(done, s) && s != done[0].symbol {
        var k :| 0 <= k < |done| && done[k].symbol == s;
        assert done[1..][k - 1].symbol == s;
      }
    }
  }

  lemma DescribesHead(insts: Instruments, l: Ledger, modes: map<Symbol, Option<MarginMode>>, marks: Marks, p: Position)
    requires Listed(insts, l, modes, p.symbol)
    requires p.qty == Get(l.positions, p.symbol) && p.mode == ModeOf(modes, p.symbol)
    requires p.avgPrice == if p.qty == 0.0 then 0.0 else Get(marks, p.symbol)
    requires p.qty != 0.0 ==> ValidMark(marks, p.symbol).Some?
    ensures Describes(insts, l, modes, marks, p)
  {
  }

  // ---------------------------------------------------------------- reopening

  /** Every position entry is a known symbol, marked if it is a derivative that is worth anything. */
  predicate Opened(insts: Instruments, l: Ledger, marks: Marks) {
    && CoinsKept(l)
    && forall s :: s in l.positions ==>
         s in insts && (NeedsMark(insts[s], Get(l.positions, s), Get(l.coin, s)) ==> ValidMark(marks, s).Some?)
  }

  function TotalOf(balances: seq<Balance>, c: Currency): real {
    if balances == [] then 0.0
    else (if balances[0].currency == c then balances[0].total else 0.0) + TotalOf(balances[1..], c)
  }

  lemma {:induction false} TotalOfUnlisted(balances: seq<Balance>, c: Currency)
    requires forall k :: 0 <= k < |balances| ==> balances[k].currency != c
    ensures TotalOf(balances, c) == 0.0
  {
    if balances != [] {
      TotalOfUnlisted(balances[1..], c);
    }
  }

  lemma {:induction false} TotalOfListed(balances: seq<Balance>, k: nat)
    requires k < |balances| && forall i, j :: 0 <= i < j < |balances| ==> balances[i].currency != balances[j].currency
    ensures TotalOf(balances, balances[k].currency) == balances[k].total
  {
    if k == 0 {
      TotalOfUnlisted(balances[1..], balances[0].currency);
    } else {
      TotalOfListed(balances[1..], k - 1);
    }
  }

  /** No balance names a symbol the ledger already has, and the ledger has only spot entries. */
  predicate Fresh(insts: Instruments, l: Ledger, balances: seq<Balance>) {
    && (forall s :: s in l.positions ==> s in insts && insts[s].kind.Spot?)
    && (forall k :: 0 <= k < |balances| && balances[k].valuation.Some? ==> balances[k].valuation.value !in l.positions)
  }

  lemma {:induction false} OpenBalancesCount(insts: Instruments, l: Ledger, balances: seq<Balance>, c: Currency,
                                             marks: Marks)
    requires BalancesOk(insts, balances) && Fresh(insts, l, balances)
    ensures EquityValue(insts, OpenBalances(l, balances), c, marks) == EquityValue(insts, l, c, marks) + TotalOf(balances, c)
    ensures Fresh(insts, OpenBalances(l, balances), []) && OpenBalances(l, balances).coin == l.coin
    decreases |balances|
  {
    hide EquityValue, Normalize;
    if balances != [] {
      OpenBalanceCounts(insts, l, balances[0], c, marks);
      OpenBalancesCount(insts, OpenBalance(l, balances[0]), balances[1..], c, marks);
    }
  }

  /** Positions at their marks, of derivatives the ledger does not have yet. */
  ghost predicate AtMarks(insts: Instruments, l: Ledger, positions: seq<Position>, marks: Marks) {
    && PositionsOk(positions) && DistinctSymbols(positions)
    && forall k :: 0 <= k < |positions| ==>
         && positions[k].symbol in insts && !insts[positions[k].symbol].kind.Spot? && positions[k].symbol !in l.positions
         && (positions[k].qty != 0.0 ==> ValidMark(marks, positions[k].symbol) == Some(positions[k].avgPrice))
  }

  lemma {:induction false} OpenPositionsCount(insts: Instruments, l: Ledger, positions: seq<Position>, c: Currency,
                                              marks: Marks)
    requires AtMarks(insts, l, positions, marks) && Opened(insts, l, marks)
    ensures EquityValue(insts, OpenPositions(insts, l, positions), c, marks) == EquityValue(insts, l, c, marks)
    ensures Opened(insts, OpenPositions(insts, l, positions), marks)
    decreases |positions|
  {
    hide EquityValue, AccountingCurrency, Coins, Cost;
    if positions != [] {
      OpenPositionCounts(insts, l, positions[0], c, marks);
      OpenPositionOpened(insts, l, positions[0], marks);
      OpenPositionsCount(insts, OpenPosition(insts, l, positions[0]), positions[1..], c, marks);
    }
  }

  lemma OpenPositionOpened(insts: Instruments, l: Ledger, p: Position, marks: Marks)
    requires Opened(insts, l, marks) && PositionOk(p) && p.symbol in insts && p.symbol !in l.positions
    requires p.qty != 0.0 ==> ValidMark(marks, p.symbol).Some?
    ensures Opened(insts, OpenPosition(insts, l, p), marks)
  {
    hide AccountingCurrency, Coins, Cost;
  }

  lemma NothingYet(insts: Instruments, c: Currency, marks: Marks)
    ensures EquityValue(insts, EMPTY, c, marks) == 0.0
  {
  }

  /** A settled snapshot opens a ledger in which every listed currency is worth its listed total. */
  lemma ReopenedEquity(insts: Instruments, balances: seq<Balance>, positions: seq<Position>, marks: Marks, c: Currency)
    requires BalancesOk(insts, balances) && AtMarks(insts, EMPTY, positions, marks)
    ensures var re := OpenPositions(insts, OpenBalances(EMPTY, balances), positions);
            && AccountEquity(insts, re, c, marks) == Some(TotalOf(balances, c))
            && EquityValue(insts, re, c, marks) == TotalOf(balances, c)
  {
    hide EquityValue, Settlement, BalanceOk;
    NothingYet(insts, c, marks);
    OpenBalancesCount(insts, EMPTY, balances, c, marks);
    var l := OpenBalances(EMPTY, balances);
    assert Opened(insts, l, marks);
    assert AtMarks(insts, l, positions, marks);
    OpenPositionsCount(insts, l, positions, c, marks);
  }

  /** The snapshot `Settle` produces from a valid opening snapshot. */
  ghost predicate SettlesTo(insts: Instruments, rates: Rates, l: Ledger, initial: Initial, marks: Marks,
                            leverage: real, cmr: real,
                            done: Initial) {
    BalancesOk(insts, initial.balances) && Settle(insts, rates, l, initial, marks, leverage, cmr) == Settled(done)
  }

  lemma SettledSnapshot(insts: Instruments, rates: Rates, l: Ledger, initial: Initial, marks: Marks, leverage: real,
                        cmr: real, done: Initial)
    requires SettlesTo(insts, rates, l, initial, marks, leverage, cmr, done)
    ensures SettleBalances(insts, l, initial.balances, marks) == Settled(done.balances)
    ensures SettlePositions(insts, l, SortedKeys(insts.Keys), Modes(initial.positions), marks) == Settled(done.positions)
    ensures |done.balances| == |initial.balances| && BalancesOk(insts, done.balances)
    ensures AllDescribe(insts, l, Modes(initial.positions), marks, done.positions)
    ensures AtMarks(insts, EMPTY, done.positions, marks)
  {
    hide SettleBalances, SettlePositions, AccountEquity, EquityChecked, NotionalChecked, EquityValue, Normalize,
         MarginFor;
    SettledBalances(insts, l, initial.balances, marks);
    SettledPositions(insts, l, SortedKeys(insts.Keys), Modes(initial.positions), marks);
  }

  /** Reopening keeps the native equity of every listed currency at the same marks. */
  lemma ReopenKeepsEquity(insts: Instruments, rates: Rates, l: Ledger, initial: Initial, marks: Marks, leverage: real,
                          cmr: real,
                          done: Initial, k: nat)
    requires SettlesTo(insts, rates, l, initial, marks, leverage, cmr, done) && k < |initial.balances|
    ensures PositionsOk(done.positions)
    ensures var c := initial.balances[k].currency;
            && AccountEquity(insts, l, c, marks).Some?
            && AccountEquity(insts, WithInitial(insts, done), c, marks) == AccountEquity(insts, l, c, marks)
  {
    hide AccountEquity, EquityValue, Settle, SettlePositions, SettleBalances, TotalOf;
    SettledSnapshot(insts, rates, l, initial, marks, leverage, cmr, done);
    SettledBalances(insts, l, initial.balances, marks);
    var c := initial.balances[k].currency;
    EquityWhenValued(insts, l, c, marks);
    ReopenedEquity(insts, done.balances, done.positions, marks, c);
    TotalOfListed(done.balances, k);
  }

  // ---------------------------------------------------------------- settling twice

  lemma {:induction false} OpenedQty(insts: Instruments, l: Ledger, positions: seq<Position>, s: Symbol)
    requires PositionsOk(positions) && DistinctSymbols(positions)
    requires forall k :: 0 <= k < |positions| ==> positions[k].symbol in insts
    ensures !Names(positions, s) ==> Get(OpenPositions(insts, l, positions).positions, s) == Get(l.positions, s)
    ensures forall k :: 0 <= k < |positions| && positions[k].symbol == s ==>
                          Get(OpenPositions(insts, l, positions).positions, s) == positions[k].qty
    decreases |positions|
  {
    hide AccountingCurrency, Coins, Cost;
    if positions != [] {
      OpenedQty(insts, OpenPosition(insts, l, positions[0]), positions[1..], s);
      NamesMore(positions);
      if positions[0].symbol == s {
        assert !Names(positions[1..], s);
      }
    }
  }

  lemma {:induction false} ModesOf(positions: seq<Position>, s: Symbol)
    requires DistinctSymbols(positions)
    ensures s in Modes(positions) <==> Names(positions, s)
    ensures forall k :: 0 <= k < |positions| && positions[k].symbol == s ==> ModeOf(Modes(positions), s) == positions[k].mode
  {
    if positions != [] {
      var n := |positions| - 1;
      ModesOf(positions[..n], s);
      if Names(positions[..n], s) {
        var k :| 0 <= k < n && positions[..n][k].symbol == s;
        assert positions[k].symbol == s;
      }
      if Names(positions, s) && positions[n].symbol != s {
        var k :| 0 <= k < |positions| && positions[k].symbol == s;
        assert positions[..n][k].symbol == s;
      }
    }
  }

  /** Of several opening entries for a symbol the last gives its margin mode. */
  lemma {:induction false} LastModeWins(positions: seq<Position>, k: nat)
    requires k < |positions| && forall j :: k < j < |positions| ==> positions[j].symbol != positions[k].symbol
    ensures ModeOf(Modes(positions), positions[k].symbol) == positions[k].mode
  {
    var n := |positions| - 1;
    if k < n {
      LastModeWins(positions[..n], k);
    }
  }

  /** Two ledgers that agree on quantities, listing and modes settle to the same positions. */
  ghost predicate SameDecision(insts: Instruments, l: Ledger, modes: map<Symbol, Option<MarginMode>>,
                               m: Ledger, more: map<Symbol, Option<MarginMode>>, s: Symbol) {
    s in insts && !insts[s].kind.Spot? ==>
      && Get(m.positions, s) == Get(l.positions, s)
      && (s in more <==> Get(l.positions, s) != 0.0 || s in modes)
      && ModeOf(more, s) == ModeOf(modes, s)
  }

  lemma {:induction false} SamePositions(insts: Instruments, l: Ledger, modes: map<Symbol, Option<MarginMode>>,
                                         m: Ledger, more: map<Symbol, Option<MarginMode>>, syms: seq<Symbol>, marks: Marks)
    requires forall s :: s in syms ==> SameDecision(insts, l, modes, m, more, s)
    ensures SettlePositions(insts, m, syms, more, marks) == SettlePositions(insts, l, syms, modes, marks)
  {
    if syms != [] {
      assert SameDecision(insts, l, modes, m, more, syms[0]);
      SamePositions(insts, l, modes, m, more, syms[1..], marks);
    }
  }

  lemma {:induction false} SameBalances(insts: Instruments, l: Ledger, balances: seq<Balance>, marks: Marks)
    requires forall k :: 0 <= k < |balances| ==>
               && Normalize(balances[k].currency) == balances[k].currency && balances[k].total >= 0.0
               && AccountEquity(insts, l, balances[k].currency, marks) == Some(balances[k].total)
               && balances[k] == Closing(balances[k], balances[k].total)
    ensures SettleBalances(insts, l, balances, marks) == Settled(balances)
  {
    hide AccountEquity, Normalize;
    if balances != [] {
      SameBalances(insts, l, balances[1..], marks);
      assert balances == [balances[0]] + balances[1..];
    }
  }

  lemma {:induction false} SettledTotals(insts: Instruments, l: Ledger, balances: seq<Balance>, marks: Marks)
    requires SettleBalances(insts, l, balances, marks).Settled?
    ensures var done := SettleBalances(insts, l, balances, marks).value;
            forall k :: 0 <= k < |done| ==> done[k].total >= 0.0 && done[k] == Closing(done[k], done[k].total)
  {
    hide AccountEquity, Normalize;
    if balances != [] {
      SettledTotals(insts, l, balances[1..], marks);
    }
  }

  /** Settling the reopened account gives back the same balances and positions; only USD valuation could refuse it. */
  lemma SettleTwice(insts: Instruments, rates: Rates, l: Ledger, initial: Initial, marks: Marks, leverage: real,
                    cmr: real, done: Initial)
    requires SettlesTo(insts, rates, l, initial, marks, leverage, cmr, done)
    ensures PositionsOk(done.positions)
    ensures var re := WithInitial(insts, done);
            && SettleBalances(insts, re, done.balances, marks) == Settled(done.balances)
            && SettlePositions(insts, re, SortedKeys(insts.Keys), Modes(done.positions), marks) == Settled(done.positions)
  {
    hide AccountEquity, EquityValue, Settle, SettlePositions, SettleBalances, TotalOf, Modes, OpenPositions,
         OpenBalances;
    SettledSnapshot(insts, rates, l, initial, marks, leverage, cmr, done);
    var re := WithInitial(insts, done);
    SettledTotals(insts, l, initial.balances, marks);
    forall k | 0 <= k < |done.balances|
      ensures AccountEquity(insts, re, done.balances[k].currency, marks) == Some(done.balances[k].total)
    {
      ReopenedEquity(insts, done.balances, done.positions, marks, done.balances[k].currency);
      TotalOfListed(done.balances, k);
    }
    SameBalances(insts, re, done.balances, marks);
    var syms, modes, more := SortedKeys(insts.Keys), Modes(initial.positions), Modes(done.positions);
    SettledPositions(insts, l, syms, modes, marks);
    forall s | s in syms
      ensures SameDecision(insts, l, modes, re, more, s)
    {
      ReopenedDecision(insts, l, modes, done, marks, s);
    }
    SamePositions(insts, l, modes, re, more, syms, marks);
  }

  lemma ReopenedDecision(insts: Instruments, l: Ledger, modes: map<Symbol, Option<MarginMode>>, done: Initial,
                         marks: Marks, s: Symbol)
    requires BalancesOk(insts, done.balances) && AtMarks(insts, EMPTY, done.positions, marks)
    requires AllDescribe(insts, l, modes, marks, done.positions)
    requires s in insts && (Names(done.positions, s) <==> Listed(insts, l, modes, s))
    ensures SameDecision(insts, l, modes, WithInitial(insts, done), Modes(done.positions), s)
  {
    hide EquityValue, Modes, OpenPositions, BalanceOk;
    OpenBalancesCount(insts, EMPTY, done.balances, "", marks);
    OpenedQty(insts, OpenBalances(EMPTY, done.balances), done.positions, s);
    ModesOf(done.positions, s);
    if Names(done.positions, s) {
      var k :| 0 <= k < |done.positions| && done.positions[k].symbol == s;
      assert Describes(insts, l, modes, marks, done.positions[k]);
    }
  }

  // ---------------------------------------------------------------- USD equity

  /** USD per unit of a balance: its currency's rate, or for spot inventory the price of its instrument. */
  function Weight(insts: Instruments, rates: Rates, marks: Marks, b: Balance): real {
    if b.valuation.None? then RateOrPar(b.currency, rates)
    else if b.valuation.value !in insts || ValidMark(marks, b.valuation.value).None? then 0.0
    else Value(marks[b.valuation.value], RateOrPar(AccountingCurrency(insts[b.valuation.value]), rates))
  }

  /** The balances' currencies valued with the amounts `x`. */
  function WeighAll(insts: Instruments, rates: Rates, marks: Marks, balances: seq<Balance>, x: Currency -> real): real {
    if balances == [] then 0.0
    else Value(x(balances[0].currency), Weight(insts, rates, marks, balances[0]))
         + WeighAll(insts, rates, marks, balances[1..], x)
  }

  lemma {:induction false} WeighAdds(insts: Instruments, rates: Rates, marks: Marks, balances: seq<Balance>,
                                     x: Currency -> real, y: Currency -> real, z: Currency -> real)
    requires forall c :: z(c) == x(c) + y(c)
    ensures WeighAll(insts, rates, marks, balances, z)
            == WeighAll(insts, rates, marks, balances, x) + WeighAll(insts, rates, marks, balances, y)
  {
    hide Weight, Value;
    if balances != [] {
      var c := balances[0].currency;
      ValueAdds(x(c), y(c), Weight(insts, rates, marks, balances[0]));
      WeighAdds(insts, rates, marks, balances[1..], x, y, z);
    }
  }

  lemma {:induction false} WeighZero(insts: Instruments, rates: Rates, marks: Marks, balances: seq<Balance>,
                                     x: Currency -> real)
    requires forall k :: 0 <= k < |balances| ==> x(balances[k].currency) == 0.0
    ensures WeighAll(insts, rates, marks, balances, x) == 0.0
  {
    hide Weight, Value;
    if balances != [] {
      assert x(balances[0].currency) == 0.0;
      ValueAdds(0.0, 0.0, Weight(insts, rates, marks, balances[0]));
      WeighZero(insts, rates, marks, balances[1..], x);
    }
  }
}
