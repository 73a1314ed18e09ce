/**
 The backtest portfolio ledger over exact reals: spot, linear and inverse instruments, average cost, fees, funding, and
 valuation. Prices and quantities are real numbers where `PortfolioState` has `f64`; rounding, NaN and infinities are not
 part of this model.
 */
module Portfolio {
  import opened Common
  import opened Sums

  type Symbol = string
  type Currency = string

  // ---------------------------------------------------------------- currencies

  /** The Unicode White_Space property, which trimming uses. */
  predicate IsSpace(c: char) {
    var n := c as int;
    || 9 <= n <= 13 || n == 32 || n == 0x85 || n == 0xA0 || n == 0x1680 || 0x2000 <= n <= 0x200A
    || n == 0x2028 || n == 0x2029 || n == 0x202F || n == 0x205F || n == 0x3000
  }

  function TrimStart(s: string): string {
    if s != [] && IsSpace(s[0]) then TrimStart(s[1..]) else s
  }

  function TrimEnd(s: string): string {
    if s != [] && IsSpace(s[|s| - 1]) then TrimEnd(s[..|s| - 1]) else s
  }

  function Trim(s: string): string {
    TrimEnd(TrimStart(s))
  }

  function UpperChar(c: char): char {
    if 'a' <= c <= 'z' then (c as int - 32) as char else c
  }

  function Upper(s: string): string {
    seq(|s|, i requires 0 <= i < |s| => UpperChar(s[i]))
  }

  function Normalize(c: Currency): Currency {
    if Trim(c) == "" then "USD" else Upper(Trim(c))
  }

  predicate Blank(c: Currency) {
    Trim(c) == ""
  }

  // ---------------------------------------------------------------- instruments

  datatype Kind = Spot | Future | LinearFuture | InverseFuture | LinearSwap | InverseSwap {
    predicate IsInverse() {
      InverseFuture? || InverseSwap?
    }

    predicate IsSwap() {
      LinearSwap? || InverseSwap?
    }

    predicate IsLinear() {
      !Spot? && !IsInverse()
    }
  }

  datatype Instrument = Instrument(
    kind: Kind,
    base: Currency,
    quote: Currency,
    settle: Currency,
    contractValue: real,
    makerFee: real,
    takerFee: real)

  type Instruments = map<Symbol, Instrument>

  /** The currency an instrument's cash is kept in. */
  function AccountingCurrency(i: Instrument): Currency {
    Normalize(if i.kind.IsLinear() && i.settle != "" then i.settle else i.quote)
  }

  /** The currency an inverse instrument's coins are. */
  function CoinCurrency(i: Instrument): Currency {
    Normalize(if i.settle == "" then i.base else i.settle)
  }

  type Rates = map<Currency, real>
  type Marks = map<Symbol, real>

  function RateChecked(c: Currency, rates: Rates): Option<real> {
    if c == "USD" then Some(1.0) else if c in rates && rates[c] > 0.0 then Some(rates[c]) else None
  }

  function RateOrPar(c: Currency, rates: Rates): real {
    if RateChecked(c, rates).Some? then RateChecked(c, rates).value else 1.0
  }

  /** An amount converted at a rate. */
  function Value(amount: real, rate: real): real {
    amount * rate
  }

  function FeeRate(i: Instrument, currency: Currency, price: real, rates: Rates): real {
    if !Blank(i.base) && Normalize(currency) == Normalize(i.base) then price * RateOrPar(Normalize(i.quote), rates)
    else RateOrPar(Normalize(currency), rates)
  }

  predicate FeeRateComplete(i: Instrument, currency: Currency, rates: Rates) {
    if !Blank(i.base) && Normalize(currency) == Normalize(i.base) then RateChecked(Normalize(i.quote), rates).Some?
    else RateChecked(Normalize(currency), rates).Some?
  }

  // ---------------------------------------------------------------- the ledger

  datatype Totals = Totals(
    feeCost: real,
    fundingPnl: real,
    turnover: real,
    exactFees: nat,
    estimatedFees: nat,
    conversionFailures: nat,
    invalidEvents: nat)

  datatype Ledger = Ledger(
    positions: map<Symbol, real>,
    avg: map<Symbol, real>,
    coin: map<Symbol, real>,
    cash: map<Currency, real>,
    totals: Totals)

  const EMPTY := Ledger(map[], map[], map[], map[], Totals(0.0, 0.0, 0.0, 0, 0, 0, 0))

  datatype Fee = Fee(amount: real, currency: Currency)

  datatype Liquidity = Maker | Taker

  datatype Fill = Fill(
    symbol: Symbol,
    buy: bool,
    qty: real,
    price: real,
    fee: Option<Fee>,
    liquidity: Option<Liquidity>)
  {
    function Factor(): real {
      if buy then 1.0 else -1.0
    }

    function Signed(): real {
      Factor() * qty
    }
  }

  function Saturate(n: nat): nat {
    SaturatingAdd(n, 1)
  }

  /** 2 to the power -52, the spacing of `f64` at one. */
  const EPSILON: real := 1.0 / 4503599627370496.0

  function Abs(x: real): real {
    if x < 0.0 then -x else x
  }

  /** Average cost after a fill: arithmetic for spot and linear, harmonic for inverse. */
  function NewAvg(inverse: bool, oldQty: real, oldAvg: real, signed: real, price: real): real
    requires price > 0.0
  {
    var newQty := oldQty + signed;
    if Abs(newQty) <= EPSILON then 0.0
    else if oldQty == 0.0 || (oldQty > 0.0) == (signed > 0.0) then
      if inverse && oldQty != 0.0 then Harmonic(oldQty, oldAvg, signed, price)
      else Arithmetic(oldQty, oldAvg, signed, price)
    else if Abs(signed) < Abs(oldQty) then oldAvg
    else price
  }

  function Arithmetic(oldQty: real, oldAvg: real, signed: real, price: real): real
    requires oldQty + signed != 0.0
  {
    (Abs(oldQty) * oldAvg + Abs(signed) * price) / Abs(oldQty + signed)
  }

  /** A zero old average makes the divisor infinite in `f64` arithmetic, and so the result zero. */
  function Harmonic(oldQty: real, oldAvg: real, signed: real, price: real): real
    requires price > 0.0
  {
    if oldAvg == 0.0 || Abs(oldQty) / oldAvg + Abs(signed) / price == 0.0 then 0.0
    else Abs(oldQty + signed) / (Abs(oldQty) / oldAvg + Abs(signed) / price)
  }

  function Notional(i: Instrument, qty: real, price: real): real {
    if i.kind.Spot? then qty * price
    else if i.kind.IsInverse() then qty * i.contractValue
    else qty * i.contractValue * price
  }

  /** Contracts in coins at a price. */
  function Coins(i: Instrument, qty: real, price: real): real
    requires price > 0.0
  {
    qty * i.contractValue / price
  }

  predicate Accepted(insts: Instruments, f: Fill) {
    && f.qty > 0.0 && f.symbol in insts && f.price > 0.0
    && (f.fee.Some? ==> !Blank(f.fee.value.currency))
  }

  function Positioned(i: Instrument, l: Ledger, f: Fill): Ledger
    requires f.price > 0.0
  {
    var (q, a) := (Get(l.positions, f.symbol), Get(l.avg, f.symbol));
    l.(positions := l.positions[f.symbol := q + f.Signed()],
       avg := l.avg[f.symbol := NewAvg(i.kind.IsInverse(), q, a, f.Signed(), f.price)])
  }

  /** What a fill pays for what it buys, negative for a sale. */
  function Price(i: Instrument, f: Fill): real {
    f.Factor() * Notional(i, f.qty, f.price)
  }

  /** The traded amount leaves or enters the instrument's cash. */
  function Paid(i: Instrument, l: Ledger, f: Fill): Ledger
    requires f.price > 0.0
  {
    if i.kind.IsInverse() then l.(coin := AddTo(l.coin, f.symbol, Coins(i, f.Signed(), f.price)))
    else l.(cash := AddTo(l.cash, AccountingCurrency(i), -Price(i, f)))
  }

  datatype FeeSide = ToPosition | ToCoin | ToCash

  /** Where an exchange-reported fee is booked. */
  function FeeSideOf(i: Instrument, currency: Currency): FeeSide {
    var c := Normalize(currency);
    if i.kind.Spot? && !Blank(i.base) && c == Normalize(i.base) then ToPosition
    else if i.kind.IsInverse() && ((!Blank(i.settle) && c == Normalize(i.settle))
                                   || (!Blank(i.base) && c == Normalize(i.base)))
    then ToCoin
    else ToCash
  }

  function ExactFee(i: Instrument, l: Ledger, symbol: Symbol, fee: Fee): Ledger {
    match FeeSideOf(i, fee.currency)
    case ToPosition => l.(positions := AddTo(l.positions, symbol, fee.amount))
    case ToCoin => l.(coin := AddTo(l.coin, symbol, fee.amount))
    case ToCash => l.(cash := AddTo(l.cash, Normalize(fee.currency), fee.amount))
  }

  function EstimatedRate(i: Instrument, f: Fill): real {
    if f.liquidity == Some(Maker) then i.makerFee else if f.liquidity == Some(Taker) then i.takerFee else 0.0
  }

  function EstimatedCost(i: Instrument, f: Fill): real {
    Abs(Notional(i, f.qty, f.price)) * EstimatedRate(i, f)
  }

  function EstimatedFee(i: Instrument, l: Ledger, f: Fill): Ledger
    requires f.price > 0.0
  {
    if i.kind.IsInverse() then l.(coin := AddTo(l.coin, f.symbol, -(EstimatedCost(i, f) / f.price)))
    else l.(cash := AddTo(l.cash, AccountingCurrency(i), -EstimatedCost(i, f)))
  }

  function Charged(i: Instrument, l: Ledger, f: Fill): Ledger
    requires f.price > 0.0
  {
    if f.fee.Some? then ExactFee(i, l, f.symbol, f.fee.value) else EstimatedFee(i, l, f)
  }

  /** The fee cost in USD that the fill adds to the running total. */
  function FeeCost(i: Instrument, f: Fill, rates: Rates): real {
    if f.fee.Some? then
      Value(-f.fee.value.amount,
            if f.fee.value.amount == 0.0 then 1.0 else FeeRate(i, f.fee.value.currency, f.price, rates))
    else Value(EstimatedCost(i, f), RateOrPar(AccountingCurrency(i), rates))
  }

  predicate ConversionFailed(i: Instrument, f: Fill, rates: Rates) {
    || RateChecked(AccountingCurrency(i), rates).None?
    || (f.fee.Some? && f.fee.value.amount != 0.0 && !FeeRateComplete(i, f.fee.value.currency, rates))
  }

  function Tallied(i: Instrument, t: Totals, f: Fill, rates: Rates): Totals {
    t.(feeCost := t.feeCost + FeeCost(i, f, rates),
       turnover := t.turnover + Value(Abs(Notional(i, f.qty, f.price)), RateOrPar(AccountingCurrency(i), rates)),
       exactFees := if f.fee.Some? then Saturate(t.exactFees) else t.exactFees,
       estimatedFees := if f.fee.Some? then t.estimatedFees else Saturate(t.estimatedFees),
       conversionFailures := if ConversionFailed(i, f, rates) then Saturate(t.conversionFailures) else t.conversionFailures)
  }

  function ApplyFill(insts: Instruments, rates: Rates, l: Ledger, f: Fill): Ledger {
    if f.qty <= 0.0 then l
    else if !Accepted(insts, f) then l.(totals := l.totals.(invalidEvents := Saturate(l.totals.invalidEvents)))
    else
      var i := insts[f.symbol];
      Charged(i, Paid(i, Positioned(i, l, f), f), f).(totals := Tallied(i, l.totals, f, rates))
  }

  // ---------------------------------------------------------------- funding

  predicate Fundable(insts: Instruments, l: Ledger, symbol: Symbol, mark: real) {
    symbol in insts && insts[symbol].kind.IsSwap() && Get(l.positions, symbol) != 0.0 && mark > 0.0
  }

  function FundingCoins(i: Instrument, qty: real, rate: real, mark: real): real
    requires mark > 0.0
  {
    qty * i.contractValue * rate / mark
  }

  function FundingCost(i: Instrument, qty: real, rate: real, mark: real): real
    requires mark > 0.0
  {
    if i.kind.IsInverse() then FundingCoins(i, qty, rate, mark) * mark else qty * i.contractValue * rate * mark
  }

  function FundingPnl(insts: Instruments, rates: Rates, l: Ledger, symbol: Symbol, rate: real,
                      mark: real): Option<real> {
    if symbol !in insts || !insts[symbol].kind.IsSwap() then None
    else if Get(l.positions, symbol) == 0.0 then Some(0.0)
    else if mark <= 0.0 then None
    else
      var i := insts[symbol];
      Some(Value(-FundingCost(i, Get(l.positions, symbol), rate, mark), RateOrPar(AccountingCurrency(i), rates)))
  }

  function ApplyFunding(insts: Instruments, rates: Rates, l: Ledger, symbol: Symbol, rate: real, mark: real): Ledger {
    if !Fundable(insts, l, symbol, mark) then l
    else
      var i, q := insts[symbol], Get(l.positions, symbol);
      var paid :=
        if i.kind.IsInverse() then l.(coin := AddTo(l.coin, symbol, -FundingCoins(i, q, rate, mark)))
        else l.(cash := AddTo(l.cash, AccountingCurrency(i), -FundingCost(i, q, rate, mark)));
      paid.(totals := l.totals.(
        fundingPnl := l.totals.fundingPnl + Value(-FundingCost(i, q, rate, mark), RateOrPar(AccountingCurrency(i), rates)),
        conversionFailures := if RateChecked(AccountingCurrency(i), rates).None? then Saturate(l.totals.conversionFailures)
                              else l.totals.conversionFailures))
  }

  // ---------------------------------------------------------------- valuation

  /** What one position is worth at its mark, in its accounting currency. */
  function Worth(i: Instrument, qty: real, coin: real, mark: real): real
    requires mark > 0.0
  {
    if i.kind.Spot? then qty * mark
    else if i.kind.IsInverse() then (coin - Coins(i, qty, mark)) * mark
    else qty * i.contractValue * mark
  }

  predicate PositiveMarks(marks: Marks) {
    forall s :: s in marks ==> marks[s] > 0.0
  }

  function PositionUsd(insts: Instruments, rates: Rates, l: Ledger, marks: Marks, s: Symbol): real {
    if s !in insts || s !in marks || marks[s] <= 0.0 then 0.0
    else Value(Worth(insts[s], Get(l.positions, s), Get(l.coin, s), marks[s]),
               RateOrPar(AccountingCurrency(insts[s]), rates))
  }

  function CashUsdOf(rates: Rates, cash: map<Currency, real>, c: Currency): real {
    Value(Get(cash, c), RateOrPar(c, rates))
  }

  function CashTerms(rates: Rates, cash: map<Currency, real>): Currency -> real {
    c => CashUsdOf(rates, cash, c)
  }

  function PositionTerms(insts: Instruments, rates: Rates, l: Ledger, marks: Marks): Symbol -> real {
    s => PositionUsd(insts, rates, l, marks, s)
  }

  ghost function CashUsd(rates: Rates, cash: map<Currency, real>): real {
    SumOver(cash.Keys, CashTerms(rates, cash))
  }

  ghost function PositionsUsd(insts: Instruments, rates: Rates, l: Ledger, marks: Marks): real {
    SumOver(l.positions.Keys, PositionTerms(insts, rates, l, marks))
  }

  ghost function EquityUsd(insts: Instruments, rates: Rates, l: Ledger, marks: Marks): real {
    CashUsd(rates, l.cash) + PositionsUsd(insts, rates, l, marks)
  }
}
