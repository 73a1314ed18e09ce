/** The amounts themselves: what a fill moves, what fees and funding cost and who pays, and what the totals add up to. */
module PortfolioAmounts {
  import opened Common
  import opened Sums
  import opened Portfolio
  import opened PortfolioAttribution
  import opened PortfolioBasis

  // ---------------------------------------------------------------- currencies

  lemma {:induction false} TrimmedStart(s: string)
    ensures var r := TrimStart(s); r == [] || !IsSpace(r[0])
    ensures forall c :: c in TrimStart(s) ==> c in s
  {
    if s != [] && IsSpace(s[0]) {
      TrimmedStart(s[1..]);
    }
  }

  lemma {:induction false} TrimmedEnd(s: string)
    ensures var r := TrimEnd(s); r <= s && (r == [] || !IsSpace(r[|r| - 1]))
  {
    if s != [] && IsSpace(s[|s| - 1]) {
      TrimmedEnd(s[..|s| - 1]);
    }
  }

  lemma UpperKeepsSpace(c: char)
    ensures IsSpace(UpperChar(c)) == IsSpace(c) && UpperChar(UpperChar(c)) == UpperChar(c)
            && !('a' <= UpperChar(c) <= 'z')
  {
  }

  /** A string without spaces at its ends or lower-case letters, and not empty. */
  predicate Plain(s: string) {
    s != [] && !IsSpace(s[0]) && !IsSpace(s[|s| - 1]) && forall k :: 0 <= k < |s| ==> !('a' <= s[k] <= 'z')
  }

  lemma PlainIsNormal(s: string)
    requires Plain(s)
    ensures Normalize(s) == s
  {
    assert Trim(s) == s;
    assert Upper(s) == s;
  }

  /** Currency names are trimmed and upper-cased, a blank name is USD, and normalizing again changes nothing. */
  lemma NormalizeIs(c: Currency)
    ensures Plain(Normalize(c)) && Normalize(Normalize(c)) == Normalize(c)
    ensures Blank(c) ==> Normalize(c) == "USD"
    ensures Plain(c) ==> Normalize(c) == c
  {
    var t := Trim(c);
    TrimmedStart(c);
    TrimmedEnd(TrimStart(c));
    if t != "" {
      UpperKeepsSpace(t[0]);
      UpperKeepsSpace(t[|t| - 1]);
      forall k | 0 <= k < |t| ensures !('a' <= Upper(t)[k] <= 'z') {
        UpperKeepsSpace(t[k]);
      }
    }
    PlainIsNormal(Normalize(c));
    if Plain(c) {
      PlainIsNormal(c);
    }
  }

  /**
   Linear futures and swaps are kept in the currency they settle in, if they name one, and everything else in its quote
   currency; the coins of inverse futures and swaps are the settlement currency or, without one, the base.
   */
  lemma KeptIn(i: Instrument)
    ensures i.kind.Spot? || i.kind.InverseFuture? || i.kind.InverseSwap? || i.settle == "" ==>
              AccountingCurrency(i) == Normalize(i.quote)
    ensures (i.kind.Future? || i.kind.LinearFuture? || i.kind.LinearSwap?) && i.settle != "" ==>
              AccountingCurrency(i) == Normalize(i.settle)
    ensures i.settle != "" ==> CoinCurrency(i) == Normalize(i.settle)
    ensures i.settle == "" ==> CoinCurrency(i) == Normalize(i.base)
    ensures i.kind.IsInverse() <==> i.kind.InverseFuture? || i.kind.InverseSwap?
  {
    hide Normalize;
  }

  // ---------------------------------------------------------------- funding

  /** Funding applies to open linear and inverse swaps at a usable mark, and to nothing else. */
  lemma OnlySwapsAreFunded(insts: Instruments, l: Ledger, s: Symbol, mark: real)
    ensures Fundable(insts, l, s, mark) <==>
            && s in insts && (insts[s].kind.LinearSwap? || insts[s].kind.InverseSwap?)
            && s in l.positions && l.positions[s] != 0.0 && mark > 0.0
  {
  }

  /** What a swap position of this size counts for: contracts for an inverse swap, contracts at the mark otherwise. */
  function FundedSize(i: Instrument, qty: real, mark: real): real {
    if i.kind.IsInverse() then qty * i.contractValue else qty * i.contractValue * mark
  }

  lemma CostIsShare(i: Instrument, qty: real, rate: real, mark: real)
    requires mark > 0.0
    ensures FundingCost(i, qty, rate, mark) == rate * FundedSize(i, qty, mark)
    ensures FundingCoins(i, qty, rate, mark) == qty * i.contractValue * rate / mark
  {
    var c := qty * i.contractValue;
    if i.kind.IsInverse() {
      assert c * rate / mark * mark == c * rate;
    } else {
      assert c * rate * mark == rate * (c * mark);
    }
  }

  lemma ShareValue(rate: real, size: real, r: real)
    ensures Value(-(rate * size), r) == -rate * Value(size, r)
  {
  }

  lemma RateIsPositive(c: Currency, rates: Rates)
    ensures RateOrPar(c, rates) > 0.0
  {
  }

  /** What funding brings in, in USD: minus the rate, times the size of the position at the mark. */
  function FundingDue(i: Instrument, qty: real, rate: real, mark: real, usd: real): real {
    if i.kind.IsInverse() then -rate * Value(qty * i.contractValue, usd)
    else -rate * Value(qty * i.contractValue * mark, usd)
  }

  lemma DueIs(i: Instrument, q: real, rate: real, mark: real, r: real)
    requires mark > 0.0
    ensures Value(-FundingCost(i, q, rate, mark), r) == FundingDue(i, q, rate, mark, r)
  {
    CostIsShare(i, q, rate, mark);
    hide Value, FundingCost;
    if i.kind.IsInverse() {
      ShareValue(rate, q * i.contractValue, r);
    } else {
      ShareValue(rate, q * i.contractValue * mark, r);
    }
  }

  /** Funding costs a position its rate times its size, and the returned amount is the change in equity. */
  lemma FundingPays(insts: Instruments, rates: Rates, l: Ledger, s: Symbol, rate: real, mark: real, marks: Marks)
    requires CoinsKept(l) && Fundable(insts, l, s, mark) && s in marks && marks[s] == mark
    ensures var (i, now) := (insts[s], ApplyFunding(insts, rates, l, s, rate, mark));
            var due := FundingDue(i, Get(l.positions, s), rate, mark, RateOrPar(AccountingCurrency(i), rates));
            && EquityUsd(insts, rates, now, marks) - EquityUsd(insts, rates, l, marks) == due
            && FundingPnl(insts, rates, l, s, rate, mark) == Some(due)
            && now.totals.fundingPnl == l.totals.fundingPnl + due
  {
    hide RateOrPar, AccountingCurrency, EquityUsd, Value, FundingCoins, FundingCost, RateChecked, FundingDue;
    FundingAttribution(insts, rates, l, s, rate, mark, marks);
    DueIs(insts[s], Get(l.positions, s), rate, mark, RateOrPar(AccountingCurrency(insts[s]), rates));
  }

  /** A linear swap pays in cash of its accounting currency, an inverse swap in coins; nothing else moves. */
  lemma FundingMoves(insts: Instruments, rates: Rates, l: Ledger, s: Symbol, rate: real, mark: real)
    requires Fundable(insts, l, s, mark)
    ensures var (i, q, now) := (insts[s], Get(l.positions, s), ApplyFunding(insts, rates, l, s, rate, mark));
            && now.positions == l.positions && now.avg == l.avg
            && (i.kind.IsInverse() ==>
                  && now.cash == l.cash
                  && Get(now.coin, s) == Get(l.coin, s) - q * i.contractValue * rate / mark
                  && forall j :: j != s ==> Get(now.coin, j) == Get(l.coin, j))
            && (!i.kind.IsInverse() ==>
                  && now.coin == l.coin
                  && Get(now.cash, AccountingCurrency(i))
                     == Get(l.cash, AccountingCurrency(i)) - rate * (q * i.contractValue * mark)
                  && forall c :: c != AccountingCurrency(i) ==> Get(now.cash, c) == Get(l.cash, c))
  {
    CostIsShare(insts[s], Get(l.positions, s), rate, mark);
    hide RateOrPar, AccountingCurrency, Value, FundingCoins, FundingCost, RateChecked, AddTo;
  }

  /** The side that pays: at a positive rate a long loses equity and a short gains it. */
  lemma LongsPay(insts: Instruments, rates: Rates, l: Ledger, s: Symbol, rate: real, mark: real, marks: Marks)
    requires CoinsKept(l) && Fundable(insts, l, s, mark) && s in marks && marks[s] == mark
    requires rate > 0.0 && insts[s].contractValue > 0.0
    ensures var now := ApplyFunding(insts, rates, l, s, rate, mark);
            if Get(l.positions, s) > 0.0 then EquityUsd(insts, rates, now, marks) < EquityUsd(insts, rates, l, marks)
            else EquityUsd(insts, rates, now, marks) > EquityUsd(insts, rates, l, marks)
  {
    hide RateOrPar, AccountingCurrency, EquityUsd, ApplyFunding, FundingPnl, FundingDue;
    FundingPays(insts, rates, l, s, rate, mark, marks);
    RateIsPositive(AccountingCurrency(insts[s]), rates);
    DueSign(insts[s], Get(l.positions, s), rate, mark, RateOrPar(AccountingCurrency(insts[s]), rates));
  }

  lemma DueSign(i: Instrument, q: real, rate: real, mark: real, r: real)
    requires mark > 0.0 && rate > 0.0 && r > 0.0 && i.contractValue > 0.0 && q != 0.0
    ensures if q > 0.0 then FundingDue(i, q, rate, mark, r) < 0.0 else FundingDue(i, q, rate, mark, r) > 0.0
  {
    SizeSign(i, q, mark);
    hide Value;
    ShareSign(rate, if i.kind.IsInverse() then q * i.contractValue else q * i.contractValue * mark, r);
  }

  lemma SizeSign(i: Instrument, qty: real, mark: real)
    requires mark > 0.0 && i.contractValue > 0.0
    ensures qty > 0.0 ==> FundedSize(i, qty, mark) > 0.0
    ensures qty < 0.0 ==> FundedSize(i, qty, mark) < 0.0
  {
    ProductSign(qty, i.contractValue);
    ProductSign(qty * i.contractValue, mark);
  }

  lemma ProductSign(x: real, y: real)
    requires y > 0.0
    ensures x > 0.0 ==> x * y > 0.0
    ensures x < 0.0 ==> x * y < 0.0
  {
  }

  lemma ShareSign(rate: real, size: real, r: real)
    requires rate > 0.0 && r > 0.0
    ensures size > 0.0 ==> -rate * Value(size, r) < 0.0
    ensures size < 0.0 ==> -rate * Value(size, r) > 0.0
  {
    ProductSign(size, r);
    ProductSign(Value(size, r), rate);
  }

  /** Without a swap, a position or a usable mark funding changes nothing; only a flat swap reports a zero. */
  lemma NoFunding(insts: Instruments, rates: Rates, l: Ledger, s: Symbol, rate: real, mark: real)
    requires !Fundable(insts, l, s, mark)
    ensures ApplyFunding(insts, rates, l, s, rate, mark) == l
    ensures FundingPnl(insts, rates, l, s, rate, mark)
            == if s in insts && insts[s].kind.IsSwap() && Get(l.positions, s) == 0.0 then Some(0.0) else None
  {
  }

  // ---------------------------------------------------------------- what a fill moves

  /** What a fill is worth in its accounting currency: its size, in contracts for an inverse, at its price otherwise. */
  function TradedValue(i: Instrument, f: Fill): real {
    if i.kind.Spot? then f.qty * f.price
    else if i.kind.IsInverse() then f.qty * i.contractValue
    else f.qty * i.contractValue * f.price
  }

  /** Buying adds to a position and selling takes from it, apart from a fee that is charged in the base itself. */
  lemma FillMovesPosition(insts: Instruments, rates: Rates, l: Ledger, f: Fill)
    requires CoinsKept(l) && Accepted(insts, f)
    ensures var (i, now) := (insts[f.symbol], ApplyFill(insts, rates, l, f));
            var inBase := i.kind.Spot? && f.fee.Some? && !Blank(i.base)
                          && Normalize(f.fee.value.currency) == Normalize(i.base);
            && Get(now.positions, f.symbol) - Get(l.positions, f.symbol)
               == (if f.buy then f.qty else -f.qty) + (if inBase then f.fee.value.amount else 0.0)
            && forall s :: s != f.symbol ==> Get(now.positions, s) == Get(l.positions, s)
  {
    hide NewAvg, Coins, AccountingCurrency, Price, Normalize, Blank, Tallied, EstimatedCost;
    TradedEntries(insts[f.symbol], l, f);
    assert f.Signed() == if f.buy then f.qty else -f.qty;
  }

  /** Buying pays the traded value in cash, or takes it up in coins for an inverse; an estimated fee is paid on top. */
  lemma FillMovesMoney(insts: Instruments, rates: Rates, l: Ledger, f: Fill)
    requires CoinsKept(l) && Accepted(insts, f) && f.fee.None?
    ensures var (i, now) := (insts[f.symbol], ApplyFill(insts, rates, l, f));
            var paid := if f.buy then TradedValue(i, f) else -TradedValue(i, f);
            if i.kind.IsInverse() then
              && now.cash == l.cash
              && Get(now.coin, f.symbol) == Get(l.coin, f.symbol) + paid / f.price - EstimatedFeeOf(i, f) / f.price
            else
              && now.coin == l.coin
              && Get(now.cash, AccountingCurrency(i)) == Get(l.cash, AccountingCurrency(i)) - paid - EstimatedFeeOf(i, f)
              && forall c :: c != AccountingCurrency(i) ==> Get(now.cash, c) == Get(l.cash, c)
  {
    var i := insts[f.symbol];
    PaidIs(i, f);
    FeeIs(i, f);
    hide NewAvg, Coins, AccountingCurrency, Price, EstimatedCost, EstimatedFeeOf, TradedValue, Tallied, Blank,
         Fill.Signed;
    TradedEntries(i, l, f);
  }

  lemma PaidIs(i: Instrument, f: Fill)
    requires f.price > 0.0
    ensures var paid := if f.buy then TradedValue(i, f) else -TradedValue(i, f);
            Price(i, f) == paid && (i.kind.IsInverse() ==> Coins(i, f.Signed(), f.price) == paid / f.price)
  {
    if !f.buy {
      assert -1.0 * f.qty == -f.qty;
      assert -f.qty * i.contractValue == -(f.qty * i.contractValue);
    }
  }

  /** An estimated fee: the maker's or the taker's rate on the size of the trade, and none when neither is known. */
  function EstimatedFeeOf(i: Instrument, f: Fill): real {
    var size := if TradedValue(i, f) < 0.0 then -TradedValue(i, f) else TradedValue(i, f);
    match f.liquidity
    case Some(Maker) => size * i.makerFee
    case Some(Taker) => size * i.takerFee
    case None => 0.0
  }

  lemma FeeIs(i: Instrument, f: Fill)
    ensures EstimatedCost(i, f) == EstimatedFeeOf(i, f)
  {
  }

  /** A fill at the mark without an exact fee costs equity exactly its estimated fee. */
  lemma EstimatedFeePaid(insts: Instruments, rates: Rates, l: Ledger, f: Fill, marks: Marks)
    requires CoinsKept(l) && Accepted(insts, f) && f.fee.None? && f.symbol in marks && marks[f.symbol] == f.price
    ensures var (i, now) := (insts[f.symbol], ApplyFill(insts, rates, l, f));
            EquityUsd(insts, rates, l, marks) - EquityUsd(insts, rates, now, marks)
            == Value(EstimatedFeeOf(i, f), RateOrPar(AccountingCurrency(i), rates))
  {
    FillAttribution(insts, rates, l, f, marks);
    FeeIs(insts[f.symbol], f);
    hide EquityUsd, EstimatedFeeOf, EstimatedCost, Value, RateOrPar, AccountingCurrency, Charged, Paid, Positioned,
         Blank,
         ConversionFailed, Notional;
  }

  // ---------------------------------------------------------------- totals

  /** The traded value of a fill in USD, whichever way it went. */
  function TurnoverOf(i: Instrument, f: Fill, rates: Rates): real {
    Value(Abs(TradedValue(i, f)), RateOrPar(AccountingCurrency(i), rates))
  }

  /** The traded value or a fee that is not zero had to be converted at par: a base fee needs the quote's rate. */
  predicate Unconverted(i: Instrument, f: Fill, rates: Rates) {
    || RateChecked(AccountingCurrency(i), rates).None?
    || (f.fee.Some? && f.fee.value.amount != 0.0
        && var c := Normalize(f.fee.value.currency);
           RateChecked(if !Blank(i.base) && c == Normalize(i.base) then Normalize(i.quote) else c, rates).None?)
  }

  /** What a fill counts: accepted fills their turnover and whether the fee was exact, refused ones only the refusal. */
  lemma FillTallies(insts: Instruments, rates: Rates, l: Ledger, f: Fill)
    ensures var (t, now) := (l.totals, ApplyFill(insts, rates, l, f).totals);
            && (f.qty <= 0.0 ==> ApplyFill(insts, rates, l, f) == l)
            && (f.qty > 0.0 && !Accepted(insts, f) ==>
                  ApplyFill(insts, rates, l, f) == l.(totals := t.(invalidEvents := Saturate(t.invalidEvents))))
            && (f.qty > 0.0 && Accepted(insts, f) ==>
                  && now.turnover == t.turnover + TurnoverOf(insts[f.symbol], f, rates)
                  && now.fundingPnl == t.fundingPnl && now.invalidEvents == t.invalidEvents
                  && now.exactFees == (if f.fee.Some? then Saturate(t.exactFees) else t.exactFees)
                  && now.estimatedFees == (if f.fee.None? then Saturate(t.estimatedFees) else t.estimatedFees)
                  && now.conversionFailures
                     == if Unconverted(insts[f.symbol], f, rates) then Saturate(t.conversionFailures)
                        else t.conversionFailures)
  {
    if f.qty > 0.0 && Accepted(insts, f) {
      assert Notional(insts[f.symbol], f.qty, f.price) == TradedValue(insts[f.symbol], f);
    }
    hide Value, RateOrPar, RateChecked, AccountingCurrency, Blank, Normalize, FeeCost, Charged, Paid, Positioned,
         Notional,
         TradedValue, Abs;
  }

  /** All that accepted fills traded. */
  function TurnoverSum(insts: Instruments, rates: Rates, fills: seq<Fill>): real {
    if fills == [] then 0.0
    else (if Accepted(insts, fills[0]) then TurnoverOf(insts[fills[0].symbol], fills[0], rates) else 0.0)
         + TurnoverSum(insts, rates, fills[1..])
  }

  function AcceptedCount(insts: Instruments, fills: seq<Fill>, exact: bool): nat {
    if fills == [] then 0
    else (if Accepted(insts, fills[0]) && fills[0].fee.Some? == exact then 1 else 0)
         + AcceptedCount(insts, fills[1..], exact)
  }

  /** Over any sequence of fills turnover is the sum, and the fee counters count, until they saturate. */
  lemma {:induction false} RunTallies(insts: Instruments, rates: Rates, l: Ledger, fills: seq<Fill>)
    requires l.totals.exactFees <= U64_MAX && l.totals.estimatedFees <= U64_MAX
    ensures var (t, now) := (l.totals, RunFills(insts, rates, l, fills).totals);
            && now.turnover == t.turnover + TurnoverSum(insts, rates, fills)
            && now.exactFees == Min(t.exactFees + AcceptedCount(insts, fills, true), U64_MAX)
            && now.estimatedFees == Min(t.estimatedFees + AcceptedCount(insts, fills, false), U64_MAX)
    decreases |fills|
  {
    hide TurnoverOf, Blank, ApplyFill;
    if fills != [] {
      FillTallies(insts, rates, l, fills[0]);
      RunTallies(insts, rates, ApplyFill(insts, rates, l, fills[0]), fills[1..]);
    }
  }
}
