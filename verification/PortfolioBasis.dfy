/** Cost basis is exact: account balances move only by realised profit, by spot exchange and by fees. */
module PortfolioBasis {
  import opened Common
  import opened Sums
  import opened Portfolio
  import opened PortfolioAttribution

  // ---------------------------------------------------------------- the average and the basis

  /** Cost of an open position, in the currency it settles in. */
  function Basis(i: Instrument, qty: real, avg: real): real {
    if i.kind.IsInverse() then (if qty == 0.0 || avg <= 0.0 then 0.0 else qty * i.contractValue / avg)
    else qty * i.contractValue * avg
  }

  predicate Adds(oldQty: real, signed: real) {
    oldQty == 0.0 || (oldQty > 0.0) == (signed > 0.0)
  }

  /** The average cost there would be without the test for a position of almost zero. */
  function IdealAvg(inverse: bool, oldQty: real, oldAvg: real, signed: real, price: real): real
    requires price > 0.0 && signed != 0.0 && (oldQty != 0.0 ==> oldAvg > 0.0)
  {
    if Adds(oldQty, signed) then
      if inverse && oldQty != 0.0 then Harmonic(oldQty, oldAvg, signed, price)
      else Arithmetic(oldQty, oldAvg, signed, price)
    else if Abs(signed) < Abs(oldQty) then oldAvg
    else price
  }

  lemma ArithmeticPositive(q: real, a: real, signed: real, p: real)
    requires p > 0.0 && signed != 0.0 && (q != 0.0 ==> a > 0.0) && q + signed != 0.0
    ensures Arithmetic(q, a, signed, p) > 0.0
  {
    assert Abs(q) * a >= 0.0 && Abs(signed) * p > 0.0;
    QuotientPositive(Abs(q) * a + Abs(signed) * p, Abs(q + signed));
  }

  lemma HarmonicPositive(q: real, a: real, signed: real, p: real)
    requires p > 0.0 && a > 0.0 && signed != 0.0 && q != 0.0 && q + signed != 0.0
    ensures Harmonic(q, a, signed, p) > 0.0
  {
    QuotientPositive(Abs(q), a);
    QuotientPositive(Abs(signed), p);
    QuotientPositive(Abs(q + signed), Abs(q) / a + Abs(signed) / p);
  }

  lemma IdealIsPositive(inverse: bool, q: real, a: real, signed: real, p: real)
    requires p > 0.0 && signed != 0.0 && (q != 0.0 ==> a > 0.0)
    ensures IdealAvg(inverse, q, a, signed, p) > 0.0
  {
    hide Arithmetic, Harmonic;
    if Adds(q, signed) {
      ArithmeticPositive(q, a, signed, p);
      if q != 0.0 {
        HarmonicPositive(q, a, signed, p);
      }
    }
  }

  lemma QuotientPositive(x: real, y: real)
    requires x > 0.0 && y > 0.0
    ensures x / y > 0.0
  {
  }

  predicate Dust(qty: real) {
    qty != 0.0 && Abs(qty) <= EPSILON
  }

  lemma NewAvgIsIdeal(inverse: bool, oldQty: real, oldAvg: real, signed: real, price: real)
    requires price > 0.0 && signed != 0.0 && (oldQty != 0.0 ==> oldAvg > 0.0)
    ensures NewAvg(inverse, oldQty, oldAvg, signed, price)
            == if Abs(oldQty + signed) <= EPSILON then 0.0 else IdealAvg(inverse, oldQty, oldAvg, signed, price)
  {
    hide Arithmetic, Harmonic;
  }

  // ---------------------------------------------------------------- realised profit

  /** How much of the old position a fill closes, with the position's sign. */
  function Closed(oldQty: real, signed: real): real {
    if Adds(oldQty, signed) then 0.0 else if Abs(signed) < Abs(oldQty) then -signed else oldQty
  }

  /** Profit on the closed quantity, in the settlement currency. */
  function Realised(i: Instrument, oldQty: real, oldAvg: real, signed: real, price: real): real
    requires price > 0.0 && (oldQty != 0.0 ==> oldAvg > 0.0)
  {
    var closed := Closed(oldQty, signed);
    if closed == 0.0 then 0.0 else Profit(i, closed, oldAvg, price)
  }

  function Profit(i: Instrument, qty: real, from: real, to: real): real
    requires from > 0.0 && to > 0.0
  {
    if i.kind.IsInverse() then qty * i.contractValue / from - qty * i.contractValue / to
    else qty * i.contractValue * (to - from)
  }

  /** What the trade itself adds to the settlement balance outside the basis. */
  function Leg(i: Instrument, signed: real, price: real): real
    requires price > 0.0
  {
    if i.kind.IsInverse() then signed * i.contractValue / price else -(signed * i.contractValue * price)
  }

  /** The sign with which the basis enters the settlement balance: inverse coins are held against it. */
  function BasisPart(i: Instrument, qty: real, avg: real): real {
    if i.kind.IsInverse() then -Basis(i, qty, avg) else Basis(i, qty, avg)
  }

  lemma SignedQuotient(q: real, x: real)
    requires q != 0.0
    ensures q * (x / Abs(q)) == if q > 0.0 then x else -x
  {
    assert x / Abs(q) * Abs(q) == x;
  }

  lemma LinearAdd(cv: real, q: real, a: real, signed: real, p: real)
    requires p > 0.0 && signed != 0.0 && Adds(q, signed)
    ensures q + signed != 0.0
    ensures (q + signed) * cv * ((Abs(q) * a + Abs(signed) * p) / Abs(q + signed)) == q * cv * a + signed * cv * p
  {
    var x := Abs(q) * a + Abs(signed) * p;
    SignedQuotient(q + signed, x);
    var y := (q + signed) * (x / Abs(q + signed));
    assert y == q * a + signed * p;
    assert (q + signed) * cv * (x / Abs(q + signed)) == cv * y;
  }

  lemma LinearReduceBasis(i: Instrument, q: real, a: real, signed: real, p: real)
    requires !i.kind.IsInverse() && p > 0.0 && a > 0.0
    ensures BasisPart(i, q + signed, a) + Leg(i, signed, p) == BasisPart(i, q, a) + Profit(i, -signed, a, p)
  {
  }

  lemma LinearCloseBasis(i: Instrument, q: real, a: real, signed: real, p: real)
    requires !i.kind.IsInverse() && p > 0.0 && a > 0.0
    ensures BasisPart(i, q + signed, p) + Leg(i, signed, p) == BasisPart(i, q, a) + Profit(i, q, a, p)
  {
  }

  lemma LinearAddBasis(i: Instrument, q: real, a: real, signed: real, p: real, avg: real)
    requires !i.kind.IsInverse() && p > 0.0 && signed != 0.0 && q + signed != 0.0 && Adds(q, signed)
    requires avg == Arithmetic(q, a, signed, p)
    ensures BasisPart(i, q + signed, avg) == BasisPart(i, q, a) - Leg(i, signed, p)
  {
    hide Adds, Abs;
    LinearAdd(i.contractValue, q, a, signed, p);
  }

  lemma QuotientAdds(x: real, y: real, cv: real, p: real)
    requires p > 0.0
    ensures (x + y) * cv / p == x * cv / p + y * cv / p && -x * cv / p == -(x * cv / p)
  {
    DivideSum(x * cv, y * cv, p);
  }

  /** The harmonic mean adds the coin values of its parts. */
  lemma InverseAdd(cv: real, q: real, a: real, signed: real, p: real)
    requires p > 0.0 && signed != 0.0 && q != 0.0 && a > 0.0 && Adds(q, signed)
    ensures q + signed != 0.0 && Abs(q) / a + Abs(signed) / p > 0.0
    ensures var avg := Abs(q + signed) / (Abs(q) / a + Abs(signed) / p);
            avg > 0.0 && (q + signed) * cv / avg == q * cv / a + signed * cv / p
  {
    QuotientPositive(Abs(q), a);
    QuotientPositive(Abs(signed), p);
    var weight := Abs(q) / a + Abs(signed) / p;
    QuotientPositive(Abs(q + signed), weight);
    OverQuotient(q + signed, cv, weight);
    ScaleQuotients(cv, q, a, signed, p, if q > 0.0 then 1.0 else -1.0);
  }

  lemma OverQuotient(q: real, cv: real, w: real)
    requires q != 0.0 && w > 0.0
    ensures Abs(q) / w != 0.0 && q * cv / (Abs(q) / w) == (if q > 0.0 then 1.0 else -1.0) * cv * w
  {
    QuotientPositive(Abs(q), w);
    var avg := Abs(q) / w;
    assert avg * w == Abs(q);
    assert (if q > 0.0 then 1.0 else -1.0) * cv * w * avg == q * cv;
  }

  lemma ScaleQuotients(cv: real, q: real, a: real, signed: real, p: real, sign: real)
    requires p > 0.0 && a > 0.0 && q == sign * Abs(q) && signed == sign * Abs(signed)
    ensures sign * cv * (Abs(q) / a + Abs(signed) / p) == q * cv / a + signed * cv / p
  {
    ScaleQuotient(cv, q, a, sign);
    ScaleQuotient(cv, signed, p, sign);
    Distribute(Abs(q) / a, Abs(signed) / p, sign * cv);
  }

  lemma ScaleQuotient(cv: real, q: real, a: real, sign: real)
    requires a > 0.0 && q == sign * Abs(q)
    ensures sign * cv * (Abs(q) / a) == q * cv / a
  {
    var x := Abs(q) / a;
    assert x * a == Abs(q);
    assert sign * cv * x * a == q * cv;
  }

  lemma InverseAddBasis(i: Instrument, q: real, a: real, signed: real, p: real, avg: real)
    requires i.kind.IsInverse() && p > 0.0 && signed != 0.0 && q != 0.0 && a > 0.0 && Adds(q, signed)
    requires avg == Harmonic(q, a, signed, p)
    ensures BasisPart(i, q + signed, avg) == BasisPart(i, q, a) - Leg(i, signed, p)
  {
    hide Adds, Abs;
    InverseAdd(i.contractValue, q, a, signed, p);
  }

  lemma InverseOpenBasis(i: Instrument, a: real, signed: real, p: real, avg: real)
    requires i.kind.IsInverse() && p > 0.0 && signed != 0.0
    requires avg == Arithmetic(0.0, a, signed, p)
    ensures BasisPart(i, signed, avg) == -Leg(i, signed, p) && BasisPart(i, 0.0, a) == 0.0
  {
    assert Abs(signed) * p / Abs(signed) == p;
  }

  lemma InverseReduceBasis(i: Instrument, q: real, a: real, signed: real, p: real)
    requires i.kind.IsInverse() && p > 0.0 && a > 0.0 && q != 0.0 && q + signed != 0.0
    ensures BasisPart(i, q + signed, a) + Leg(i, signed, p) == BasisPart(i, q, a) + Profit(i, -signed, a, p)
  {
    QuotientAdds(q, signed, i.contractValue, a);
    QuotientAdds(signed, 0.0, i.contractValue, p);
    QuotientAdds(signed, 0.0, i.contractValue, a);
  }

  lemma InverseCloseBasis(i: Instrument, q: real, a: real, signed: real, p: real)
    requires i.kind.IsInverse() && p > 0.0 && a > 0.0 && q != 0.0
    ensures BasisPart(i, q + signed, p) + Leg(i, signed, p) == BasisPart(i, q, a) + Profit(i, q, a, p)
  {
    QuotientAdds(q, signed, i.contractValue, p);
  }

  lemma StaysOpen(q: real, signed: real)
    requires signed != 0.0
    ensures Abs(signed) < Abs(q) || Adds(q, signed) ==> q + signed != 0.0
    ensures !Adds(q, signed) ==> q != 0.0 && -signed != 0.0
  {
  }

  /** Trading moves the basis against the cash or coins so that only realised profit is left. */
  lemma TradeRealises(i: Instrument, q: real, a: real, signed: real, p: real)
    requires p > 0.0 && signed != 0.0 && (q != 0.0 ==> a > 0.0)
    ensures BasisPart(i, q + signed, IdealAvg(i.kind.IsInverse(), q, a, signed, p)) + Leg(i, signed, p)
            == BasisPart(i, q, a) + Realised(i, q, a, signed, p)
  {
    hide BasisPart, Leg, Profit, Abs, Adds, Arithmetic, Harmonic;
    var avg := IdealAvg(i.kind.IsInverse(), q, a, signed, p);
    StaysOpen(q, signed);
    if Adds(q, signed) {
      if !i.kind.IsInverse() {
        LinearAddBasis(i, q, a, signed, p, avg);
      } else if q == 0.0 {
        InverseOpenBasis(i, a, signed, p, avg);
      } else {
        InverseAddBasis(i, q, a, signed, p, avg);
      }
    } else if Abs(signed) < Abs(q) {
      if i.kind.IsInverse() {
        InverseReduceBasis(i, q, a, signed, p);
      } else {
        LinearReduceBasis(i, q, a, signed, p);
      }
    } else {
      if i.kind.IsInverse() {
        InverseCloseBasis(i, q, a, signed, p);
      } else {
        LinearCloseBasis(i, q, a, signed, p);
      }
    }
  }

  // ---------------------------------------------------------------- account balances

  /** The currency in which an instrument's profit settles. */
  function Settlement(i: Instrument): Currency {
    if i.kind.IsInverse() then CoinCurrency(i) else AccountingCurrency(i)
  }

  /** What one symbol's entries contribute to the exchange-style balance of currency `c`. */
  function HoldingIn(i: Instrument, qty: real, coin: real, avg: real, c: Currency): real {
    if i.kind.Spot? then (if Normalize(i.base) == c then qty else 0.0)
    else if Settlement(i) != c then 0.0
    else if i.kind.IsInverse() then coin - Basis(i, qty, avg)
    else Basis(i, qty, avg)
  }

  function BalanceOf(insts: Instruments, l: Ledger, c: Currency, s: Symbol): real {
    if s !in insts then 0.0 else HoldingIn(insts[s], Get(l.positions, s), Get(l.coin, s), Get(l.avg, s), c)
  }

  function BalanceTerms(insts: Instruments, l: Ledger, c: Currency): Symbol -> real {
    s => BalanceOf(insts, l, c, s)
  }

  /** The exchange-style balance of a normalized currency, rebuilt from the cost-basis ledger. */
  ghost function AccountBalance(insts: Instruments, l: Ledger, c: Currency): real {
    Get(l.cash, c) + SumOver(l.positions.Keys, BalanceTerms(insts, l, c))
  }

  ghost predicate BookDiffersAt(l: Ledger, now: Ledger, s: Symbol) {
    DiffersAt(l, now, s) && forall j :: j != s ==> Get(now.avg, j) == Get(l.avg, j)
  }

  lemma NothingHeld(i: Instrument, avg: real, c: Currency)
    ensures HoldingIn(i, 0.0, 0.0, avg, c) == 0.0
  {
    hide AccountingCurrency, CoinCurrency, Normalize;
  }

  lemma BalanceEntry(insts: Instruments, l: Ledger, now: Ledger, s: Symbol, c: Currency)
    requires CoinsKept(l) && BookDiffersAt(l, now, s) && s in insts
    ensures AccountBalance(insts, now, c) - AccountBalance(insts, l, c)
            == Get(now.cash, c) - Get(l.cash, c) + BalanceOf(insts, now, c, s) - BalanceOf(insts, l, c, s)
  {
    hide HoldingIn;
    SumChange(l.positions.Keys, BalanceTerms(insts, l, c), BalanceTerms(insts, now, c), s);
    if s !in l.positions {
      NothingHeld(insts[s], Get(l.avg, s), c);
    }
  }

  lemma BalanceIgnoresTotals(insts: Instruments, l: Ledger, now: Ledger, c: Currency)
    requires now.positions == l.positions && now.coin == l.coin && now.cash == l.cash && now.avg == l.avg
    ensures AccountBalance(insts, now, c) == AccountBalance(insts, l, c)
  {
    hide HoldingIn;
    SumSame(l.positions.Keys, BalanceTerms(insts, l, c), BalanceTerms(insts, now, c));
  }

  // ---------------------------------------------------------------- what a fill does to a balance

  function TradeFlow(i: Instrument, q: real, a: real, f: Fill, c: Currency): real
    requires f.price > 0.0 && (i.kind.Spot? || (q != 0.0 ==> a > 0.0))
  {
    if i.kind.Spot? then
      (if Normalize(i.base) == c then f.Signed() else 0.0) - (if Settlement(i) == c then Price(i, f) else 0.0)
    else if Settlement(i) == c then Realised(i, q, a, f.Signed(), f.price) else 0.0
  }

  function FeeCurrency(i: Instrument, f: Fill): Currency {
    if f.fee.None? then Settlement(i)
    else
      match FeeSideOf(i, f.fee.value.currency)
      case ToPosition => Normalize(i.base)
      case ToCoin => CoinCurrency(i)
      case ToCash => Normalize(f.fee.value.currency)
  }

  function FeeAmount(i: Instrument, f: Fill): real
    requires f.price > 0.0
  {
    if f.fee.Some? then f.fee.value.amount
    else if i.kind.IsInverse() then -(EstimatedCost(i, f) / f.price)
    else -EstimatedCost(i, f)
  }

  function FeeFlow(i: Instrument, f: Fill, c: Currency): real
    requires f.price > 0.0
  {
    if FeeCurrency(i, f) == c then FeeAmount(i, f) else 0.0
  }

  lemma PriceIsLeg(i: Instrument, f: Fill)
    requires f.price > 0.0 && !i.kind.Spot?
    ensures if i.kind.IsInverse() then Coins(i, f.Signed(), f.price) == Leg(i, f.Signed(), f.price)
            else -Price(i, f) == Leg(i, f.Signed(), f.price)
  {
  }

  lemma BasisOfDust(i: Instrument, qty: real, avg: real)
    requires i.contractValue != 0.0 && avg > 0.0
    ensures BasisPart(i, qty, 0.0) == 0.0 && (BasisPart(i, qty, avg) == 0.0 <==> qty == 0.0)
  {
    if i.kind.IsInverse() && qty != 0.0 {
      assert qty * i.contractValue / avg * avg == qty * i.contractValue;
    }
  }

  /** The basis part and the trade's own leg leave realised profit, unless the position is left as dust. */
  lemma BasisMoves(i: Instrument, q: real, a: real, f: Fill)
    requires f.price > 0.0 && f.qty > 0.0 && !i.kind.Spot? && (q != 0.0 ==> a > 0.0) && i.contractValue != 0.0
    ensures var avg := NewAvg(i.kind.IsInverse(), q, a, f.Signed(), f.price);
            BasisPart(i, q + f.Signed(), avg) + Leg(i, f.Signed(), f.price)
            == BasisPart(i, q, a) + Realised(i, q, a, f.Signed(), f.price)
            <==> !Dust(q + f.Signed())
  {
    hide BasisPart, Leg, Realised, IdealAvg, NewAvg;
    var ideal := IdealAvg(i.kind.IsInverse(), q, a, f.Signed(), f.price);
    NewAvgIsIdeal(i.kind.IsInverse(), q, a, f.Signed(), f.price);
    IdealIsPositive(i.kind.IsInverse(), q, a, f.Signed(), f.price);
    TradeRealises(i, q, a, f.Signed(), f.price);
    BasisOfDust(i, q + f.Signed(), ideal);
  }

  predicate PricedAt(i: Instrument, l: Ledger, s: Symbol) {
    i.kind.Spot? || (Get(l.positions, s) != 0.0 ==> Get(l.avg, s) > 0.0)
  }

  lemma TradedBook(i: Instrument, l: Ledger, f: Fill)
    requires f.price > 0.0 && CoinsKept(l)
    ensures var now := Traded(i, l, f);
            && BookDiffersAt(l, now, f.symbol)
            && Get(now.avg, f.symbol)
               == NewAvg(i.kind.IsInverse(), Get(l.positions, f.symbol), Get(l.avg, f.symbol), f.Signed(), f.price)
  {
    hide NewAvg, Coins, AccountingCurrency, Price, Fill.Signed;
    TradedEntries(i, l, f);
  }

  /** Trading changes a spot balance by the exchange, and a settlement balance by realised profit unless dust is left. */
  lemma TradeBalance(insts: Instruments, l: Ledger, f: Fill, c: Currency)
    requires CoinsKept(l) && Accepted(insts, f) && PricedAt(insts[f.symbol], l, f.symbol)
    requires insts[f.symbol].contractValue != 0.0
    ensures var (i, q, a) := (insts[f.symbol], Get(l.positions, f.symbol), Get(l.avg, f.symbol));
            AccountBalance(insts, Traded(i, l, f), c) - AccountBalance(insts, l, c) == TradeFlow(i, q, a, f, c)
            <==> i.kind.Spot? || Settlement(i) != c || !Dust(q + f.Signed())
  {
    hide AccountBalance, NewAvg, Realised, Leg, Basis, Price, Coins, Traded, AccountingCurrency, CoinCurrency,
         Normalize, Blank,
         Fill.Signed, AddTo, CoinsKept, BookDiffersAt, Dust;
    var i, q, a, now := insts[f.symbol], Get(l.positions, f.symbol), Get(l.avg, f.symbol), Traded(insts[f.symbol], l, f);
    TradedEntries(i, l, f);
    TradedBook(i, l, f);
    BalanceEntry(insts, l, now, f.symbol, c);
    if !i.kind.Spot? {
      PriceIsLeg(i, f);
      BasisMoves(i, q, a, f);
    }
  }

  lemma ChargedBook(i: Instrument, l: Ledger, f: Fill)
    requires CoinsKept(l) && f.price > 0.0 && f.symbol in l.positions
    ensures var now := Charged(i, l, f);
            && CoinsKept(now) && BookDiffersAt(l, now, f.symbol) && now.avg == l.avg
            && (i.kind.Spot? || now.positions == l.positions)
  {
    hide EstimatedCost, CoinCurrency, Normalize, Blank, AccountingCurrency;
    assert l.positions.Keys + {f.symbol} == l.positions.Keys;
  }

  /** What symbol `s` and cash together put into the balance of `c`. */
  function ShareOf(i: Instrument, l: Ledger, s: Symbol, c: Currency): real {
    Get(l.cash, c) + HoldingIn(i, Get(l.positions, s), Get(l.coin, s), Get(l.avg, s), c)
  }

  lemma FeeSideFits(i: Instrument, c: Currency)
    ensures FeeSideOf(i, c).ToPosition? ==> i.kind.Spot?
    ensures FeeSideOf(i, c).ToCoin? ==> i.kind.IsInverse()
  {
    hide Normalize, Blank;
  }

  lemma ExactFeeEntry(i: Instrument, l: Ledger, s: Symbol, fee: Fee, c: Currency)
    ensures var at := match FeeSideOf(i, fee.currency)
                      case ToPosition => Normalize(i.base)
                      case ToCoin => CoinCurrency(i)
                      case ToCash => Normalize(fee.currency);
            ShareOf(i, ExactFee(i, l, s, fee), s, c) - ShareOf(i, l, s, c) == if at == c then fee.amount else 0.0
  {
    hide Basis, CoinCurrency, Normalize, AccountingCurrency, FeeSideOf, AddTo;
    FeeSideFits(i, fee.currency);
  }

  lemma EstimatedFeeEntry(i: Instrument, l: Ledger, f: Fill, c: Currency)
    requires f.price > 0.0 && f.fee.None?
    ensures ShareOf(i, EstimatedFee(i, l, f), f.symbol, c) - ShareOf(i, l, f.symbol, c) == FeeFlow(i, f, c)
  {
    hide Basis, CoinCurrency, Normalize, AccountingCurrency, EstimatedCost, AddTo;
  }

  lemma FeeBalance(insts: Instruments, l: Ledger, f: Fill, c: Currency)
    requires CoinsKept(l) && Accepted(insts, f) && f.symbol in l.positions
    ensures AccountBalance(insts, Charged(insts[f.symbol], l, f), c) - AccountBalance(insts, l, c)
            == FeeFlow(insts[f.symbol], f, c)
  {
    hide AccountBalance, HoldingIn, ExactFee, EstimatedFee, Blank, BookDiffersAt, CoinsKept, FeeSideOf, CoinCurrency,
         Normalize;
    ChargedBook(insts[f.symbol], l, f);
    BalanceEntry(insts, l, Charged(insts[f.symbol], l, f), f.symbol, c);
    if f.fee.Some? {
      ExactFeeEntry(insts[f.symbol], l, f.symbol, f.fee.value, c);
    } else {
      EstimatedFeeEntry(insts[f.symbol], l, f, c);
    }
  }

  /** A fill changes the balance of `c` by its trade flow and its fee, exactly unless it leaves dust in that currency. */
  lemma FillBalance(insts: Instruments, rates: Rates, l: Ledger, f: Fill, c: Currency)
    requires CoinsKept(l) && Accepted(insts, f) && PricedAt(insts[f.symbol], l, f.symbol)
    requires insts[f.symbol].contractValue != 0.0
    ensures var (i, q, a) := (insts[f.symbol], Get(l.positions, f.symbol), Get(l.avg, f.symbol));
            AccountBalance(insts, ApplyFill(insts, rates, l, f), c) - AccountBalance(insts, l, c)
            == TradeFlow(i, q, a, f, c) + FeeFlow(i, f, c)
            <==> i.kind.Spot? || Settlement(i) != c || !Dust(q + f.Signed())
  {
    hide AccountBalance, Blank, Dust, TradeFlow, FeeFlow, Charged, Paid, Positioned, Settlement, Fill.Signed, Tallied;
    var i := insts[f.symbol];
    var t := Traded(i, l, f);
    TradedEntries(i, l, f);
    TradeBalance(insts, l, f, c);
    FeeBalance(insts, t, f, c);
    BalanceIgnoresTotals(insts, Charged(i, t, f), ApplyFill(insts, rates, l, f), c);
  }

  const DUST_SWAP := Instrument(LinearSwap, "BTC", "USDT", "USDT", 1.0, 0.0, 0.0)
  const DUST_FILL := Fill("S", true, 0.0000000000000002, 100.0, None, None)
  const DUST_INSTS: Instruments := map["S" := DUST_SWAP]

  lemma DustNames()
    ensures Settlement(DUST_SWAP) == "USDT" && Accepted(DUST_INSTS, DUST_FILL)
  {
    assert Normalize("USDT") == "USDT";
  }

  /** Buying a fifth of a femto-contract moves the balance by something else than its flow: the average it leaves is zero. */
  lemma DustFillExample()
    ensures Accepted(DUST_INSTS, DUST_FILL)
    ensures AccountBalance(DUST_INSTS, ApplyFill(DUST_INSTS, map[], EMPTY, DUST_FILL), "USDT")
            - AccountBalance(DUST_INSTS, EMPTY, "USDT")
            != TradeFlow(DUST_SWAP, 0.0, 0.0, DUST_FILL, "USDT") + FeeFlow(DUST_SWAP, DUST_FILL, "USDT")
  {
    DustNames();
    assert Dust(0.0 + DUST_FILL.Signed());
    hide AccountBalance, ApplyFill, TradeFlow, FeeFlow, Dust, Accepted, Settlement;
    FillBalance(DUST_INSTS, map[], EMPTY, DUST_FILL, "USDT");
  }

  // ---------------------------------------------------------------- whole fill sequences

  predicate Priced(insts: Instruments, l: Ledger) {
    forall s :: s in insts ==> PricedAt(insts[s], l, s)
  }

  predicate RealContracts(insts: Instruments) {
    forall s :: s in insts ==> insts[s].contractValue != 0.0
  }

  predicate LeavesNoDust(insts: Instruments, l: Ledger, f: Fill) {
    Accepted(insts, f) && !insts[f.symbol].kind.Spot? ==> !Dust(Get(l.positions, f.symbol) + f.Signed())
  }

  lemma FillKeepsPriced(insts: Instruments, rates: Rates, l: Ledger, f: Fill)
    requires CoinsKept(l) && Priced(insts, l) && LeavesNoDust(insts, l, f)
    ensures CoinsKept(ApplyFill(insts, rates, l, f)) && Priced(insts, ApplyFill(insts, rates, l, f))
  {
    hide Blank, Charged, Paid, Positioned, Tallied, NewAvg, IdealAvg, Fill.Signed;
    if f.qty > 0.0 && Accepted(insts, f) {
      var i := insts[f.symbol];
      var t := Traded(i, l, f);
      TradedEntries(i, l, f);
      TradedBook(i, l, f);
      ChargedBook(i, t, f);
      if !i.kind.Spot? {
        NewAvgPositive(i, Get(l.positions, f.symbol), Get(l.avg, f.symbol), f);
      }
      forall s | s in insts
        ensures PricedAt(insts[s], Charged(i, t, f), s)
      {
        assert PricedAt(insts[s], l, s);
      }
    }
  }

  lemma NewAvgPositive(i: Instrument, q: real, a: real, f: Fill)
    requires f.price > 0.0 && f.qty > 0.0 && (q != 0.0 ==> a > 0.0) && !Dust(q + f.Signed())
    ensures q + f.Signed() != 0.0 ==> NewAvg(i.kind.IsInverse(), q, a, f.Signed(), f.price) > 0.0
  {
    hide NewAvg, IdealAvg;
    NewAvgIsIdeal(i.kind.IsInverse(), q, a, f.Signed(), f.price);
    IdealIsPositive(i.kind.IsInverse(), q, a, f.Signed(), f.price);
  }

  function RunFills(insts: Instruments, rates: Rates, l: Ledger, fills: seq<Fill>): Ledger
    decreases |fills|
  {
    if fills == [] then l else RunFills(insts, rates, ApplyFill(insts, rates, l, fills[0]), fills[1..])
  }

  predicate NoDust(insts: Instruments, rates: Rates, l: Ledger, fills: seq<Fill>)
    decreases |fills|
  {
    fills == [] ||
    (LeavesNoDust(insts, l, fills[0]) && NoDust(insts, rates, ApplyFill(insts, rates, l, fills[0]), fills[1..]))
  }

  /** Realised profit, spot exchange and fees of a fill, in currency `c`; a refused fill has none. */
  function FlowOf(insts: Instruments, l: Ledger, f: Fill, c: Currency): real
    requires Priced(insts, l)
  {
    if f.qty > 0.0 && Accepted(insts, f) then
      TradeFlow(insts[f.symbol], Get(l.positions, f.symbol), Get(l.avg, f.symbol), f, c) + FeeFlow(insts[f.symbol], f, c)
    else 0.0
  }

  ghost function Flows(insts: Instruments, rates: Rates, l: Ledger, fills: seq<Fill>, c: Currency): real
    requires CoinsKept(l) && Priced(insts, l) && NoDust(insts, rates, l, fills)
    decreases |fills|
  {
    if fills == [] then 0.0
    else
      FillKeepsPriced(insts, rates, l, fills[0]);
      FlowOf(insts, l, fills[0], c) + Flows(insts, rates, ApplyFill(insts, rates, l, fills[0]), fills[1..], c)
  }

  /** Over any sequence of fills that leaves no dust, every balance changes by exactly the sum of its flows. */
  lemma {:induction false} RunBalance(insts: Instruments, rates: Rates, l: Ledger, fills: seq<Fill>, c: Currency)
    requires CoinsKept(l) && Priced(insts, l) && RealContracts(insts) && NoDust(insts, rates, l, fills)
    ensures AccountBalance(insts, RunFills(insts, rates, l, fills), c) - AccountBalance(insts, l, c)
            == Flows(insts, rates, l, fills, c)
    decreases |fills|
  {
    hide AccountBalance, Blank, TradeFlow, FeeFlow, Dust, Charged, Paid, Positioned, Tallied;
    if fills != [] {
      var f := fills[0];
      var now := ApplyFill(insts, rates, l, f);
      FillKeepsPriced(insts, rates, l, f);
      RunBalance(insts, rates, now, fills[1..], c);
      if f.qty > 0.0 && Accepted(insts, f) {
        hide ApplyFill;
        FillBalance(insts, rates, l, f, c);
      } else {
        BalanceIgnoresTotals(insts, l, now, c);
      }
    }
  }
}
