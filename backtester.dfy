// SMA-crossover backtest with a linear-regression forecast tail.
//
// Candle timestamps are whole seconds; the ISO-8601 rendering of the output
// timestamps is not modelled. The least-squares fit of the forecast tail is
// a parameter (`fit`), because it is computed by a numerical library.

module Backtester {
  import opened Outcomes
  import opened Numeric

  // ---------------------------------------------------------------------
  // Interval strings ("15m", "4h", "1d") and Python's int()
  // ---------------------------------------------------------------------

  const SecondsPerMinute: int := 60
  const SecondsPerHour: int := 3600
  const SecondsPerDay: int := 86400

  /** ASCII characters that Python's str.isspace() accepts. */
  predicate IsSpace(c: char) {
    c == ' ' || c == '\t' || c == '\n' || c == '\r' || c == '\U{000B}' || c == '\U{000C}'
    || ('\U{001C}' <= c <= '\U{001F}')
  }

  function StripLeft(s: string): string
  {
    if s != [] && IsSpace(s[0]) then StripLeft(s[1..]) else s
  }

  function StripRight(s: string): string
  {
    if s != [] && IsSpace(s[|s| - 1]) then StripRight(s[..|s| - 1]) else s
  }

  /** strip() removes whitespace from both ends: what is left is a slice of
      the input with no whitespace at either end. */
  function Strip(s: string): string {
    StripRight(StripLeft(s))
  }

  lemma {:induction false} StripLeftSuffix(s: string)
    ensures |StripLeft(s)| <= |s| && StripLeft(s) == s[|s| - |StripLeft(s)|..]
    ensures StripLeft(s) == [] || !IsSpace(StripLeft(s)[0])
  {
    if s != [] && IsSpace(s[0]) {
      StripLeftSuffix(s[1..]);
    }
  }

  lemma {:induction false} StripRightPrefix(s: string)
    ensures |StripRight(s)| <= |s| && StripRight(s) == s[..|StripRight(s)|]
    ensures StripRight(s) == [] || !IsSpace(StripRight(s)[|StripRight(s)| - 1])
  {
    if s != [] && IsSpace(s[|s| - 1]) {
      StripRightPrefix(s[..|s| - 1]);
    }
  }

  lemma StripEnds(s: string)
    ensures var t := Strip(s); t == [] || (!IsSpace(t[0]) && !IsSpace(t[|t| - 1]))
    ensures exists i, j :: 0 <= i <= j <= |s| && Strip(s) == s[i..j]
  {
    StripLeftSuffix(s);
    var l := StripLeft(s);
    StripRightPrefix(l);
    var t := StripRight(l);
    if t != [] {
      assert t[0] == l[0];
    }
    assert s[|s| - |l|..][..|t|] == s[|s| - |l|..|s| - |l| + |t|];
  }

  predicate IsDigit(c: char) { '0' <= c <= '9' }

  function DigitValue(c: char): (d: nat)
    requires IsDigit(c)
    ensures d < 10
  {
    (c as int) - ('0' as int)
  }

  function DigitChar(d: nat): (c: char)
    requires d < 10
    ensures IsDigit(c) && DigitValue(c) == d
  {
    ('0' as int + d) as char
  }

  /** Digits, with single underscores allowed between two digits. */
  predicate WellFormedDigits(t: string) {
    && |t| > 0
    && IsDigit(t[0])
    && IsDigit(t[|t| - 1])
    && (forall i :: 0 <= i < |t| ==> IsDigit(t[i]) || t[i] == '_')
    && (forall i :: 0 <= i < |t| - 1 ==> !(t[i] == '_' && t[i + 1] == '_'))
  }

  /** The decimal value of the digits of `t`, underscores ignored. */
  function DigitsValue(t: string): nat
    requires forall i :: 0 <= i < |t| ==> IsDigit(t[i]) || t[i] == '_'
  {
    if t == [] then 0
    else if t[|t| - 1] == '_' then DigitsValue(t[..|t| - 1])
    else 10 * DigitsValue(t[..|t| - 1]) + DigitValue(t[|t| - 1])
  }

  /**
   * int(s) for a base-10 string: surrounding whitespace is stripped and an
   * optional sign precedes the digits; None is the ValueError.
   */
  function ParseInt(s: string): Option<int> {
    var t := Strip(s);
    if |t| > 0 && (t[0] == '+' || t[0] == '-') then
      var d := t[1..];
      if WellFormedDigits(d) then Some(if t[0] == '-' then -(DigitsValue(d) as int) else DigitsValue(d))
      else None
    else if WellFormedDigits(t) then Some(DigitsValue(t))
    else None
  }

  /** Decimal rendering of a natural number, most significant digit first. */
  function NatDigits(n: nat): (s: string)
    ensures |s| > 0
  {
    if n < 10 then [DigitChar(n)] else NatDigits(n / 10) + [DigitChar(n % 10)]
  }

  /** str(n) for an integer. */
  function Show(n: int): string {
    if n < 0 then "-" + NatDigits(-n) else NatDigits(n)
  }

  lemma {:induction false} NatDigitsValue(n: nat)
    ensures WellFormedDigits(NatDigits(n))
    ensures forall i :: 0 <= i < |NatDigits(n)| ==> IsDigit(NatDigits(n)[i])
    ensures DigitsValue(NatDigits(n)) == n
  {
    if n >= 10 {
      NatDigitsValue(n / 10);
      var s := NatDigits(n);
      assert s[..|s| - 1] == NatDigits(n / 10);
      assert forall i :: 0 <= i < |s| ==> IsDigit(s[i]) by {
        forall i | 0 <= i < |s|
          ensures IsDigit(s[i])
        {
          if i < |s| - 1 {
            assert s[i] == NatDigits(n / 10)[i];
          }
        }
      }
    }
  }

  /** A string with no whitespace at either end is left as it is by strip(). */
  lemma StripUnchanged(s: string)
    requires s != [] && !IsSpace(s[0]) && !IsSpace(s[|s| - 1])
    ensures Strip(s) == s
  {
    assert StripLeft(s) == s;
    assert StripRight(s) == s;
  }

  lemma ParseIntUnsigned(t: string)
    requires WellFormedDigits(t)
    ensures ParseInt(t) == Some(DigitsValue(t))
  {
    StripUnchanged(t);
  }

  lemma ParseIntNegative(t: string)
    requires |t| > 1 && t[0] == '-' && WellFormedDigits(t[1..])
    ensures ParseInt(t) == Some(-(DigitsValue(t[1..]) as int))
  {
    assert t[|t| - 1] == t[1..][|t| - 2];
    StripUnchanged(t);
  }

  lemma ParseShowNat(m: nat)
    ensures ParseInt(NatDigits(m)) == Some(m)
  {
    NatDigitsValue(m);
    ParseIntUnsigned(NatDigits(m));
  }

  lemma ParseShowNegative(m: nat)
    requires m > 0
    ensures ParseInt("-" + NatDigits(m)) == Some(-(m as int))
  {
    var ds := NatDigits(m);
    var s := "-" + ds;
    NatDigitsValue(m);
    assert s[1..] == ds;
    ParseIntNegative(s);
  }

  /** int(str(n)) == n. */
  lemma ParseShow(n: int)
    ensures ParseInt(Show(n)) == Some(n)
  {
    if n < 0 {
      ParseShowNegative(-n);
    } else {
      ParseShowNat(n);
    }
  }

  /** Seconds per unit suffix; 0 for any other character. */
  function UnitSeconds(u: char): int {
    if u == 'm' then SecondsPerMinute
    else if u == 'h' then SecondsPerHour
    else if u == 'd' then SecondsPerDay
    else 0
  }

  /**
   * The bar length in seconds: a number followed by 'm', 'h' or 'd';
   * anything without one of these suffixes means one day.
   */
  function ParseInterval(interval: string): (r: Outcome<int>)
    ensures (interval == [] || UnitSeconds(interval[|interval| - 1]) == 0) ==> r == Ok(SecondsPerDay)
    ensures r.Raised? ==> r.error == ValueError
    ensures r.Raised? <==>
      interval != [] && UnitSeconds(interval[|interval| - 1]) != 0 && ParseInt(interval[..|interval| - 1]).None?
  {
    if interval != [] && UnitSeconds(interval[|interval| - 1]) != 0 then
      match ParseInt(interval[..|interval| - 1])
      case Some(n) => Ok(n * UnitSeconds(interval[|interval| - 1]))
      case None => Raised(ValueError)
    else Ok(SecondsPerDay)
  }

  /** A count followed by its unit parses back to count * unit. */
  lemma ParseIntervalShow(n: int, u: char)
    requires u == 'm' || u == 'h' || u == 'd'
    ensures ParseInterval(Show(n) + [u]) == Ok(n * UnitSeconds(u))
  {
    var s := Show(n) + [u];
    assert s[..|s| - 1] == Show(n);
    ParseShow(n);
  }

  // ---------------------------------------------------------------------
  // Candles and sorting by timestamp
  // ---------------------------------------------------------------------

  /** An input candle; the volume key may be missing. */
  datatype RawCandle = RawCandle(timestamp: int, open: real, high: real, low: real, close: real, volume: Option<real>)

  datatype Candle = Candle(timestamp: int, open: real, high: real, low: real, close: real, volume: real)

  function ToCandle(c: RawCandle): (d: Candle)
    ensures c.volume.None? ==> d.volume == 0.0
    ensures d.timestamp == c.timestamp && d.close == c.close
  {
    Candle(c.timestamp, c.open, c.high, c.low, c.close, match c.volume case Some(v) => v case None => 0.0)
  }

  function ToCandles(cs: seq<RawCandle>): (ds: seq<Candle>)
    ensures |ds| == |cs|
    ensures forall i :: 0 <= i < |cs| ==> ds[i] == ToCandle(cs[i])
  {
    if cs == [] then [] else [ToCandle(cs[0])] + ToCandles(cs[1..])
  }

  ghost predicate TimeSorted(cs: seq<Candle>) {
    forall i, j :: 0 <= i < j < |cs| ==> cs[i].timestamp <= cs[j].timestamp
  }

  function InsertByTime(c: Candle, cs: seq<Candle>): (r: seq<Candle>)
    ensures multiset(r) == multiset(cs) + multiset{c}
    ensures |r| == |cs| + 1
  {
    if cs == [] || c.timestamp <= cs[0].timestamp then [c] + cs
    else
      assert cs == [cs[0]] + cs[1..];
      [cs[0]] + InsertByTime(c, cs[1..])
  }

  /** `df.sort_values('timestamp')`. */
  function SortByTime(cs: seq<Candle>): (r: seq<Candle>)
    ensures multiset(r) == multiset(cs)
    ensures |r| == |cs|
  {
    if cs == [] then []
    else
      assert cs == [cs[0]] + cs[1..];
      InsertByTime(cs[0], SortByTime(cs[1..]))
  }

  /** A candle no later than `c` and than all of `cs` is no later than anything in the merge. */
  lemma {:induction false} InsertByTimeAfter(t: int, c: Candle, cs: seq<Candle>)
    requires t <= c.timestamp
    requires forall j :: 0 <= j < |cs| ==> t <= cs[j].timestamp
    ensures forall j :: 0 <= j < |InsertByTime(c, cs)| ==> t <= InsertByTime(c, cs)[j].timestamp
  {
    if cs != [] && c.timestamp > cs[0].timestamp {
      InsertByTimeAfter(t, c, cs[1..]);
    }
  }

  lemma {:induction false} InsertByTimeSorted(c: Candle, cs: seq<Candle>)
    requires TimeSorted(cs)
    ensures TimeSorted(InsertByTime(c, cs))
  {
    if cs != [] && c.timestamp > cs[0].timestamp {
      InsertByTimeSorted(c, cs[1..]);
      InsertByTimeAfter(cs[0].timestamp, c, cs[1..]);
    }
  }

  /** The candles come out in non-decreasing timestamp order, and are a permutation of the input. */
  lemma {:induction false} SortByTimeSorted(cs: seq<Candle>)
    ensures TimeSorted(SortByTime(cs))
    ensures multiset(SortByTime(cs)) == multiset(cs)
  {
    if cs != [] {
      SortByTimeSorted(cs[1..]);
      InsertByTimeSorted(cs[0], SortByTime(cs[1..]));
    }
  }

  /** An already ordered series is left as it is. */
  lemma {:induction false} SortByTimeSortedInput(cs: seq<Candle>)
    requires TimeSorted(cs)
    ensures SortByTime(cs) == cs
  {
    if cs != [] {
      SortByTimeSortedInput(cs[1..]);
      assert SortByTime(cs[1..]) == cs[1..];
    }
  }

  lemma {:induction false} ToCandlesSortedPositive(raw: seq<RawCandle>)
    requires forall i :: 0 <= i < |raw| ==> raw[i].close > 0.0
    ensures forall i :: 0 <= i < |raw| ==> SortByTime(ToCandles(raw))[i].close > 0.0
  {
    var cs := ToCandles(raw);
    var sorted := SortByTime(cs);
    forall i | 0 <= i < |sorted|
      ensures sorted[i].close > 0.0
    {
      var c := sorted[i];
      assert c in multiset(sorted);
      assert c in multiset(cs);
      assert c in cs;
    }
  }

  // ---------------------------------------------------------------------
  // Rolling means and bars
  // ---------------------------------------------------------------------

  function Closes(cs: seq<Candle>): (xs: seq<real>)
    ensures |xs| == |cs|
    ensures forall i :: 0 <= i < |cs| ==> xs[i] == cs[i].close
  {
    seq(|cs|, i requires 0 <= i < |cs| => cs[i].close)
  }

  /**
   * `rolling(window, min_periods=1).mean()` at row i: the mean of the last
   * `window` closes up to and including row i, or of all of them while
   * fewer than `window` exist.
   */
  function RollingMean(xs: seq<real>, window: int, i: int): real
    requires window >= 1 && 0 <= i < |xs|
  {
    Mean(xs[MaxInt(0, i - window + 1)..i + 1])
  }

  /** A rolling mean stays within the range of the closes. */
  lemma RollingMeanWithin(xs: seq<real>, window: int, i: int, lo: real, hi: real)
    requires window >= 1 && 0 <= i < |xs|
    requires forall j :: 0 <= j < |xs| ==> lo <= xs[j] <= hi
    ensures lo <= RollingMean(xs, window, i) <= hi
  {
    var w := xs[MaxInt(0, i - window + 1)..i + 1];
    MeanBounds(w, lo, hi);
  }

  /** With min_periods=1 the first row's average is its own close, whatever the window. */
  lemma RollingMeanFirstRow(xs: seq<real>, window: int)
    requires window >= 1 && |xs| > 0
    ensures RollingMean(xs, window, 0) == xs[0]
  {
    assert xs[0..1] == [xs[0]];
    assert Sum([xs[0]]) == xs[0] + Sum([]);
  }

  /** One row of the frame after the two SMA columns are added. */
  datatype Bar = Bar(time: int, close: real, short: real, long: real)

  function MakeBars(cs: seq<Candle>, shortWindow: int, longWindow: int): (bars: seq<Bar>)
    requires shortWindow >= 1 && longWindow >= 1
    ensures |bars| == |cs|
  {
    var xs := Closes(cs);
    seq(|cs|, i requires 0 <= i < |cs| =>
      Bar(cs[i].timestamp, cs[i].close, RollingMean(xs, shortWindow, i), RollingMean(xs, longWindow, i)))
  }

  // ---------------------------------------------------------------------
  // The trading loop, as a specification
  // ---------------------------------------------------------------------

  datatype Costs = Costs(initialCapital: real, commission: real, slippage: real)

  predicate ValidCosts(k: Costs) {
    k.initialCapital > 0.0 && 0.0 <= k.commission < 1.0 && 0.0 <= k.slippage < 1.0
  }

  datatype Trade =
    | Buy(timestamp: int, price: real, size: real)
    | Sell(timestamp: int, price: real, size: real, pnl: real)

  /** Cash, units held, and the raw close paid for them while a position is open. */
  datatype Holding = Holding(balance: real, position: real, entry: Option<real>)

  datatype SimState = SimState(holding: Holding, trades: seq<Trade>)

  predicate BuySignal(prev: Bar, cur: Bar) {
    cur.short > cur.long && prev.short <= prev.long
  }

  predicate SellSignal(prev: Bar, cur: Bar) {
    cur.short < cur.long && prev.short >= prev.long
  }

  /** Net cash from selling `size` units at `price`. */
  function Proceeds(size: real, price: real, k: Costs): real {
    size * price * (1.0 - k.commission)
  }

  /** What the open units cost at the recorded entry close (0 without one). */
  function EntryCost(position: real, entry: Option<real>): real {
    match entry
    case Some(p) => position * p
    case None => 0.0
  }

  function Initial(k: Costs): SimState {
    SimState(Holding(k.initialCapital, 0.0, None), [])
  }

  /** Units bought with `cash`: positive, and exactly the net cash at the slipped price. */
  function BuySize(cash: real, price: real, k: Costs): real
    requires price * (1.0 + k.slippage) != 0.0
  {
    (cash * (1.0 - k.commission)) / (price * (1.0 + k.slippage))
  }

  /** The BUY branch: all the cash goes into units, recorded at the raw close. */
  function Bought(st: SimState, time: int, price: real, k: Costs): SimState
    requires price * (1.0 + k.slippage) != 0.0
  {
    var size := BuySize(st.holding.balance, price, k);
    SimState(Holding(0.0, size, Some(price)), st.trades + [Buy(time, price, size)])
  }

  /** The price a sale fills at, slipped downwards. */
  function SellPrice(price: real, k: Costs): real {
    price * (1.0 - k.slippage)
  }

  /** The SELL branch: the whole position goes at the slipped price, net of commission. */
  function Sold(st: SimState, time: int, price: real, k: Costs): SimState {
    var h := st.holding;
    var sellPrice := SellPrice(price, k);
    var proceeds := Proceeds(h.position, sellPrice, k);
    var pnl := proceeds - EntryCost(h.position, h.entry);
    SimState(Holding(proceeds, 0.0, None), st.trades + [Sell(time, sellPrice, h.position, pnl)])
  }

  /** Bar `cur` of the loop, with `prev` the row before it. */
  function Step(st: SimState, prev: Bar, cur: Bar, k: Costs): SimState
    requires cur.close * (1.0 + k.slippage) != 0.0
  {
    if BuySignal(prev, cur) && st.holding.position == 0.0 then Bought(st, cur.time, cur.close, k)
    else if SellSignal(prev, cur) && st.holding.position > 0.0 then Sold(st, cur.time, cur.close, k)
    else st
  }

  predicate ValidRun(bars: seq<Bar>, k: Costs) {
    ValidCosts(k) && forall i :: 0 <= i < |bars| ==> bars[i].close > 0.0
  }

  /** The state once row j has been processed (row 0 is never traded). */
  function StateAt(bars: seq<Bar>, k: Costs, j: nat): SimState
    requires ValidRun(bars, k) && j < |bars|
  {
    if j == 0 then Initial(k)
    else
      MulPositive(bars[j].close, 1.0 + k.slippage);
      Step(StateAt(bars, k, j - 1), bars[j - 1], bars[j], k)
  }

  function Value(h: Holding, price: real): real {
    h.balance + h.position * price
  }

  /** equity[j]: the starting capital at row 0, then cash plus the marked-to-close position. */
  function EquityAt(bars: seq<Bar>, k: Costs, j: nat): real
    requires ValidRun(bars, k) && j < |bars|
  {
    if j == 0 then k.initialCapital else Value(StateAt(bars, k, j).holding, bars[j].close)
  }

  function EquitySeries(bars: seq<Bar>, k: Costs): (e: seq<real>)
    requires ValidRun(bars, k)
    ensures |e| == |bars|
  {
    seq(|bars|, j requires 0 <= j < |bars| => EquityAt(bars, k, j))
  }

  // ---------------------------------------------------------------------
  // The trade ledger invariant
  // ---------------------------------------------------------------------

  /** The trade just before index j, if any. */
  function Prior(trades: seq<Trade>, j: nat): Option<Trade>
    requires j <= |trades|
  {
    if j == 0 then None else Some(trades[j - 1])
  }

  /** The cash available before a trade: the capital, or what the previous sale returned. */
  function CashAfter(prior: Option<Trade>, k: Costs): real {
    match prior
    case None => k.initialCapital
    case Some(t) => Proceeds(t.size, t.price, k)
  }

  function Cash(trades: seq<Trade>, j: nat, k: Costs): real
    requires j <= |trades|
  {
    CashAfter(Prior(trades, j), k)
  }

  /**
   * A trade preceded by `prior`: it is a buy exactly when nothing or a sale
   * came before it; a buy spends all the cash then available, net of
   * commission, at the slipped price; a sale closes the whole preceding buy,
   * and its pnl is its net proceeds minus what the units cost at the raw close.
   */
  ghost predicate WellPlaced(t: Trade, prior: Option<Trade>, k: Costs) {
    && (t.Buy? <==> prior.None? || prior.value.Sell?)
    && t.price > 0.0 && t.size > 0.0
    && (t.Buy? ==> t.size * (t.price * (1.0 + k.slippage)) == CashAfter(prior, k) * (1.0 - k.commission))
    && (t.Sell? ==>
          && prior.Some?
          && t.size == prior.value.size
          && t.pnl == Proceeds(t.size, t.price, k) - EntryCost(t.size, Some(prior.value.price)))
  }

  ghost predicate Ledger(trades: seq<Trade>, k: Costs) {
    forall j :: 0 <= j < |trades| ==> WellPlaced(trades[j], Prior(trades, j), k)
  }

  /** Buys sit at the even positions of the ledger, sales at the odd ones. */
  ghost predicate Alternating(trades: seq<Trade>) {
    forall j :: 0 <= j < |trades| ==> (trades[j].Buy? <==> j % 2 == 0)
  }

  lemma {:induction false} AlternatesAt(trades: seq<Trade>, k: Costs, j: nat)
    requires Ledger(trades, k) && j < |trades|
    ensures trades[j].Buy? <==> j % 2 == 0
  {
    assert WellPlaced(trades[j], Prior(trades, j), k);
    if j > 0 {
      AlternatesAt(trades, k, j - 1);
    }
  }

  lemma LedgerAlternates(trades: seq<Trade>, k: Costs)
    requires Ledger(trades, k)
    ensures Alternating(trades)
  {
    forall j | 0 <= j < |trades|
      ensures trades[j].Buy? <==> j % 2 == 0
    {
      AlternatesAt(trades, k, j);
    }
  }

  /** The last trade, if any. */
  function LastTrade(trades: seq<Trade>): Option<Trade> {
    Prior(trades, |trades|)
  }

  /** Flat and holding the cash when no buy is open; fully invested while one is. */
  ghost predicate Consistent(st: SimState, k: Costs) {
    var t := st.trades;
    var h := st.holding;
    && Ledger(t, k)
    && (LastTrade(t).None? || LastTrade(t).value.Sell? ==>
          h.position == 0.0 && h.entry == None && h.balance == CashAfter(LastTrade(t), k))
    && (LastTrade(t).Some? && LastTrade(t).value.Buy? ==>
          h.balance == 0.0 && h.position == LastTrade(t).value.size && h.entry == Some(LastTrade(t).value.price))
  }

  lemma ProceedsPositive(size: real, price: real, k: Costs)
    requires ValidCosts(k) && size > 0.0 && price > 0.0
    ensures Proceeds(size, price, k) > 0.0
  {
    MulPositive(size, price);
    MulPositive(size * price, 1.0 - k.commission);
  }

  lemma CashPositive(trades: seq<Trade>, j: nat, k: Costs)
    requires ValidCosts(k) && Ledger(trades, k) && j <= |trades|
    ensures Cash(trades, j, k) > 0.0
  {
    if j > 0 {
      var t := trades[j - 1];
      assert WellPlaced(t, Prior(trades, j - 1), k);
      ProceedsPositive(t.size, t.price, k);
    }
  }

  lemma LedgerAppend(trades: seq<Trade>, t: Trade, k: Costs)
    requires Ledger(trades, k)
    requires WellPlaced(t, LastTrade(trades), k)
    ensures Ledger(trades + [t], k)
    ensures LastTrade(trades + [t]) == Some(t)
  {
    var u := trades + [t];
    forall j | 0 <= j < |u|
      ensures WellPlaced(u[j], Prior(u, j), k)
    {
      if j < |trades| {
        assert u[j] == trades[j];
        assert Prior(u, j) == Prior(trades, j);
      } else {
        assert Prior(u, j) == LastTrade(trades);
      }
    }
  }

  lemma BuySizeExact(cash: real, price: real, k: Costs)
    requires ValidCosts(k) && cash > 0.0 && price > 0.0
    ensures price * (1.0 + k.slippage) > 0.0
    ensures BuySize(cash, price, k) > 0.0
    ensures BuySize(cash, price, k) * (price * (1.0 + k.slippage)) == cash * (1.0 - k.commission)
  {
    MulPositive(price, 1.0 + k.slippage);
    MulPositive(cash, 1.0 - k.commission);
    DivPositive(cash * (1.0 - k.commission), price * (1.0 + k.slippage));
  }

  lemma BoughtShape(st: SimState, time: int, price: real, k: Costs)
    requires price * (1.0 + k.slippage) != 0.0
    ensures var size := BuySize(st.holding.balance, price, k);
      Bought(st, time, price, k) == SimState(Holding(0.0, size, Some(price)), st.trades + [Buy(time, price, size)])
  {
  }

  lemma BuyConsistent(st: SimState, time: int, price: real, k: Costs)
    requires ValidCosts(k) && price > 0.0 && Consistent(st, k) && st.holding.position == 0.0
    ensures price * (1.0 + k.slippage) > 0.0
    ensures Consistent(Bought(st, time, price, k), k)
  {
    var h := st.holding;
    var t := st.trades;
    assert LastTrade(t).None? || LastTrade(t).value.Sell?;
    CashPositive(t, |t|, k);
    BuySizeExact(h.balance, price, k);
    var size := BuySize(h.balance, price, k);
    var b := Buy(time, price, size);
    BoughtShape(st, time, price, k);
    assert WellPlaced(b, LastTrade(t), k);
    LedgerAppend(t, b, k);
  }

  /** The slipped sale price of a positive close is positive. */
  lemma SellPricePositive(price: real, k: Costs)
    requires ValidCosts(k) && price > 0.0
    ensures SellPrice(price, k) > 0.0
  {
    MulPositive(price, 1.0 - k.slippage);
  }

  lemma SoldShape(st: SimState, time: int, price: real, k: Costs)
    ensures Sold(st, time, price, k).holding ==
      Holding(Proceeds(st.holding.position, SellPrice(price, k), k), 0.0, None)
    ensures Sold(st, time, price, k).trades ==
      st.trades + [Sell(time, SellPrice(price, k), st.holding.position,
                        Proceeds(st.holding.position, SellPrice(price, k), k) - EntryCost(st.holding.position, st.holding.entry))]
  {
    var h := st.holding;
    var sp := SellPrice(price, k);
    var pr := Proceeds(h.position, sp, k);
    var pnl := pr - EntryCost(h.position, h.entry);
    assert Sold(st, time, price, k) == SimState(Holding(pr, 0.0, None), st.trades + [Sell(time, sp, h.position, pnl)]);
  }

  lemma SellConsistent(st: SimState, time: int, price: real, k: Costs)
    requires ValidCosts(k) && price > 0.0 && Consistent(st, k) && st.holding.position > 0.0
    ensures Consistent(Sold(st, time, price, k), k)
  {
    var h := st.holding;
    var t := st.trades;
    assert LastTrade(t).Some? && LastTrade(t).value.Buy?;
    var last := LastTrade(t).value;
    assert h.position == last.size && h.entry == Some(last.price);
    SellPricePositive(price, k);
    var sellPrice := SellPrice(price, k);
    var proceeds := Proceeds(h.position, sellPrice, k);
    var x := Sell(time, sellPrice, h.position, proceeds - EntryCost(h.position, h.entry));
    SoldShape(st, time, price, k);
    assert WellPlaced(x, LastTrade(t), k);
    LedgerAppend(t, x, k);
    assert CashAfter(Some(x), k) == proceeds;
  }

  lemma StepConsistent(st: SimState, prev: Bar, cur: Bar, k: Costs)
    requires ValidCosts(k) && cur.close > 0.0 && Consistent(st, k)
    requires cur.close * (1.0 + k.slippage) != 0.0
    ensures Consistent(Step(st, prev, cur, k), k)
    ensures st.trades <= Step(st, prev, cur, k).trades
  {
    if BuySignal(prev, cur) && st.holding.position == 0.0 {
      BuyConsistent(st, cur.time, cur.close, k);
      BoughtShape(st, cur.time, cur.close, k);
    } else if SellSignal(prev, cur) && st.holding.position > 0.0 {
      SellConsistent(st, cur.time, cur.close, k);
      SoldShape(st, cur.time, cur.close, k);
    }
  }

  /** The ledger invariant holds after every row. */
  lemma {:induction false} StateConsistent(bars: seq<Bar>, k: Costs, j: nat)
    requires ValidRun(bars, k) && j < |bars|
    ensures Consistent(StateAt(bars, k, j), k)
  {
    if j > 0 {
      StateConsistent(bars, k, j - 1);
      MulPositive(bars[j].close, 1.0 + k.slippage);
      StepConsistent(StateAt(bars, k, j - 1), bars[j - 1], bars[j], k);
    }
  }

  /** Trades are only ever appended. */
  lemma {:induction false} TradesGrow(bars: seq<Bar>, k: Costs, i: nat, j: nat)
    requires ValidRun(bars, k) && i <= j < |bars|
    ensures StateAt(bars, k, i).trades <= StateAt(bars, k, j).trades
  {
    if i < j {
      TradesGrow(bars, k, i, j - 1);
      StateConsistent(bars, k, j - 1);
      MulPositive(bars[j].close, 1.0 + k.slippage);
      StepConsistent(StateAt(bars, k, j - 1), bars[j - 1], bars[j], k);
    }
  }

  /** With positive closes the account is never worth zero or less. */
  lemma EquityPositive(bars: seq<Bar>, k: Costs, j: nat)
    requires ValidRun(bars, k) && j < |bars|
    ensures EquityAt(bars, k, j) > 0.0
  {
    if j > 0 {
      var st := StateAt(bars, k, j);
      StateConsistent(bars, k, j);
      var t := st.trades;
      if LastTrade(t).None? || LastTrade(t).value.Sell? {
        CashPositive(t, |t|, k);
      } else {
        assert WellPlaced(t[|t| - 1], Prior(t, |t| - 1), k);
        MulPositive(t[|t| - 1].size, bars[j].close);
      }
    }
  }

  /** A run that never buys keeps its capital on every row. */
  lemma NoTradesFlatEquity(bars: seq<Bar>, k: Costs, j: nat)
    requires ValidRun(bars, k) && j < |bars|
    requires StateAt(bars, k, |bars| - 1).trades == []
    ensures EquityAt(bars, k, j) == k.initialCapital
  {
    TradesGrow(bars, k, j, |bars| - 1);
    StateConsistent(bars, k, j);
  }

  function CountSells(trades: seq<Trade>): (n: nat)
    ensures n <= |trades|
  {
    if trades == [] then 0
    else CountSells(trades[..|trades| - 1]) + (if trades[|trades| - 1].Sell? then 1 else 0)
  }

  /** Counting the SELL records counts completed round trips. */
  lemma {:induction false} CountSellsHalf(trades: seq<Trade>)
    requires Alternating(trades)
    ensures CountSells(trades) == |trades| / 2
  {
    if trades != [] {
      var p := trades[..|trades| - 1];
      assert forall j :: 0 <= j < |p| ==> p[j] == trades[j];
      CountSellsHalf(p);
    }
  }

  // ---------------------------------------------------------------------
  // Metrics
  // ---------------------------------------------------------------------

  predicate Positive(e: seq<real>) {
    forall i :: 0 <= i < |e| ==> e[i] > 0.0
  }

  /** `cummax()` at row i. */
  function RunningMax(e: seq<real>, i: nat): (m: real)
    requires i < |e|
    ensures forall j :: 0 <= j <= i ==> e[j] <= m
    ensures exists j :: 0 <= j <= i && e[j] == m
  {
    if i == 0 then e[0] else MaxReal(RunningMax(e, i - 1), e[i])
  }

  function Drawdown(e: seq<real>, i: nat): real
    requires Positive(e) && i < |e|
  {
    var m := RunningMax(e, i);
    (e[i] - m) / m
  }

  function MinDrawdown(e: seq<real>, i: nat): real
    requires Positive(e) && i < |e|
  {
    if i == 0 then Drawdown(e, 0) else MinReal(MinDrawdown(e, i - 1), Drawdown(e, i))
  }

  /** `drawdown.min() * 100`. */
  function MaxDrawdownPct(e: seq<real>): real
    requires Positive(e) && |e| > 0
  {
    MinDrawdown(e, |e| - 1) * 100.0
  }

  lemma DrawdownRange(e: seq<real>, i: nat)
    requires Positive(e) && i < |e|
    ensures -1.0 < Drawdown(e, i) <= 0.0
  {
    var m := RunningMax(e, i);
    assert 0.0 < e[i] <= m;
    var d := (e[i] - m) / m;
    assert d * m == e[i] - m;
    if d > 0.0 {
      MulPositive(d, m);
    }
    if d <= -1.0 {
      MulNonNegative(-d - 1.0, m);
    }
  }

  lemma {:induction false} MinDrawdownIsMin(e: seq<real>, i: nat)
    requires Positive(e) && i < |e|
    ensures -1.0 < MinDrawdown(e, i) <= 0.0
    ensures forall j :: 0 <= j <= i ==> MinDrawdown(e, i) <= Drawdown(e, j)
    ensures exists j :: 0 <= j <= i && MinDrawdown(e, i) == Drawdown(e, j)
  {
    DrawdownRange(e, i);
    if i > 0 {
      MinDrawdownIsMin(e, i - 1);
    }
  }

  /** The worst drawdown is the deepest fall from a running peak, a percentage in (-100, 0]. */
  lemma MaxDrawdownRange(e: seq<real>)
    requires Positive(e) && |e| > 0
    ensures -100.0 < MaxDrawdownPct(e) <= 0.0
    ensures forall j :: 0 <= j < |e| ==> MaxDrawdownPct(e) <= Drawdown(e, j) * 100.0
  {
    MinDrawdownIsMin(e, |e| - 1);
  }

  /** An equity curve that never falls has no drawdown. */
  lemma {:induction false} NonDecreasingNoDrawdown(e: seq<real>, i: nat)
    requires Positive(e) && i < |e|
    requires forall a, b :: 0 <= a <= b < |e| ==> e[a] <= e[b]
    ensures RunningMax(e, i) == e[i]
    ensures MinDrawdown(e, i) == 0.0
  {
    if i > 0 {
      NonDecreasingNoDrawdown(e, i - 1);
      assert e[i - 1] <= e[i];
      assert RunningMax(e, i) == MaxReal(RunningMax(e, i - 1), e[i]);
    }
    assert Drawdown(e, i) == (e[i] - e[i]) / e[i];
  }

  datatype Metrics = Metrics(totalReturnPct: real, numTrades: int, maxDrawdownPct: real)

  function MetricsOf(equity: seq<real>, trades: seq<Trade>, k: Costs): Metrics
    requires Positive(equity) && |equity| > 0 && k.initialCapital != 0.0
  {
    Metrics((equity[|equity| - 1] - k.initialCapital) / k.initialCapital * 100.0,
            CountSells(trades),
            MaxDrawdownPct(equity))
  }

  /** A run that never trades reports no return, no trades and no drawdown. */
  lemma FlatMetrics(e: seq<real>, k: Costs)
    requires |e| > 0 && k.initialCapital > 0.0
    requires forall j :: 0 <= j < |e| ==> e[j] == k.initialCapital
    ensures Positive(e)
    ensures MetricsOf(e, [], k) == Metrics(0.0, 0, 0.0)
  {
    NonDecreasingNoDrawdown(e, |e| - 1);
  }

  // ---------------------------------------------------------------------
  // Forecast tail
  // ---------------------------------------------------------------------

  /** The fitted regression line price = intercept + slope * idx. */
  datatype Line = Line(intercept: real, slope: real)

  datatype ForecastPoint = ForecastPoint(date: int, price: real, upper: real, lower: real)

  const MaxLookback: nat := 50

  /** Point i: one bar length per step past the last candle, on the line. */
  function ForecastAt(lastTime: int, delta: int, line: Line, lookback: nat, i: nat): ForecastPoint {
    var price := line.intercept + line.slope * ((lookback + i) as real);
    ForecastPoint(lastTime + delta * (i + 1), price, price * 1.02, price * 0.98)
  }

  /** Evenly spaced dates, prices on the line, and a +/-2% band around every price. */
  lemma ForecastShape(lastTime: int, delta: int, line: Line, lookback: nat, i: nat)
    ensures ForecastAt(lastTime, delta, line, lookback, i + 1).date - ForecastAt(lastTime, delta, line, lookback, i).date == delta
    ensures ForecastAt(lastTime, delta, line, lookback, i + 1).price - ForecastAt(lastTime, delta, line, lookback, i).price == line.slope
    ensures var p := ForecastAt(lastTime, delta, line, lookback, i);
      p.price >= 0.0 ==> p.lower <= p.price <= p.upper
  {
    var a := ForecastAt(lastTime, delta, line, lookback, i);
    var b := ForecastAt(lastTime, delta, line, lookback, i + 1);
    assert b.price - a.price == line.slope * (((lookback + i + 1) as real) - ((lookback + i) as real));
  }

  // ---------------------------------------------------------------------
  // run_backtest
  // ---------------------------------------------------------------------

  datatype EquityPoint = EquityPoint(timestamp: int, equity: real)

  datatype BacktestResult = BacktestResult(
    candles: seq<Candle>, trades: seq<Trade>, equity: seq<EquityPoint>,
    metrics: Option<Metrics>, forecast: seq<ForecastPoint>)

  /** The result for an empty candle list; `None` is the empty metrics dict. */
  const EmptyResult := BacktestResult([], [], [], None, [])

  /** The forecast tail: the line fitted to the last (at most) 50 closes,
      extended `days` intervals past the last candle. */
  function ForecastOf(candles: seq<Candle>, delta: int, fit: seq<real> -> Line, days: nat): seq<ForecastPoint>
    requires candles != []
  {
    var n := |candles|;
    var lookback := MinInt(MaxLookback, n);
    ForecastSeries(candles[n - 1].timestamp, delta, fit(Closes(candles)[n - lookback..]), lookback, days)
  }

  lemma ForecastOfLine(candles: seq<Candle>, delta: int, fit: seq<real> -> Line, days: nat, line: Line)
    requires candles != []
    requires line == fit(Closes(candles)[|candles| - MinInt(MaxLookback, |candles|)..])
    ensures ForecastOf(candles, delta, fit, days)
         == ForecastSeries(candles[|candles| - 1].timestamp, delta, line, MinInt(MaxLookback, |candles|), days)
  {
  }

  /** The equity column of the output, stamped with each candle's timestamp. */
  function EquityCurve(candles: seq<Candle>, equity: seq<real>): seq<EquityPoint>
    requires |equity| == |candles|
  {
    seq(|candles|, j requires 0 <= j < |candles| => EquityPoint(candles[j].timestamp, equity[j]))
  }

  /** The result of a run over non-empty candles, built from the specification functions. */
  function ExpectedRun(raw: seq<RawCandle>, shortWindow: int, longWindow: int, k: Costs,
                       forecastDays: nat, delta: int, fit: seq<real> -> Line): BacktestResult
    requires raw != [] && shortWindow >= 1 && longWindow >= 1 && ValidCosts(k)
    requires forall i :: 0 <= i < |raw| ==> raw[i].close > 0.0
  {
    var candles := SortByTime(ToCandles(raw));
    ToCandlesSortedPositive(raw);
    var bars := MakeBars(candles, shortWindow, longWindow);
    assert ValidRun(bars, k);
    RunFacts(bars, k);
    var n := |candles|;
    var equity := EquitySeries(bars, k);
    var trades := StateAt(bars, k, n - 1).trades;
    BacktestResult(
      candles,
      trades,
      EquityCurve(candles, equity),
      Some(MetricsOf(equity, trades, k)),
      ForecastOf(candles, delta, fit, forecastDays))
  }

  /**
   * What a completed run promises: one equity point per candle starting at
   * the capital, a well-formed ledger, one counted trade per round trip, a
   * drawdown in (-100, 0], and a flat zero-return run when nothing was bought.
   */
  ghost predicate Promised(r: BacktestResult, n: nat, k: Costs) {
    && |r.equity| == n
    && (n > 0 ==> r.equity[0].equity == k.initialCapital)
    && Ledger(r.trades, k)
    && r.metrics.Some?
    && r.metrics.value.numTrades == |r.trades| / 2
    && -100.0 < r.metrics.value.maxDrawdownPct <= 0.0
    && (r.trades == [] ==> r.metrics.value.totalReturnPct == 0.0 && r.metrics.value.maxDrawdownPct == 0.0)
  }

  lemma ExpectedRunPromises(raw: seq<RawCandle>, shortWindow: int, longWindow: int, k: Costs,
                            forecastDays: nat, delta: int, fit: seq<real> -> Line)
    requires raw != [] && shortWindow >= 1 && longWindow >= 1 && ValidCosts(k)
    requires forall i :: 0 <= i < |raw| ==> raw[i].close > 0.0
    ensures Promised(ExpectedRun(raw, shortWindow, longWindow, k, forecastDays, delta, fit), |raw|, k)
    ensures |ExpectedRun(raw, shortWindow, longWindow, k, forecastDays, delta, fit).forecast| == forecastDays
  {
    var candles := SortByTime(ToCandles(raw));
    ToCandlesSortedPositive(raw);
    var bars := MakeBars(candles, shortWindow, longWindow);
    RunFacts(bars, k);
  }

  /** The output candles are the input candles, defaulted and ordered by timestamp. */
  lemma ExpectedRunCandles(raw: seq<RawCandle>, shortWindow: int, longWindow: int, k: Costs,
                           forecastDays: nat, delta: int, fit: seq<real> -> Line)
    requires raw != [] && shortWindow >= 1 && longWindow >= 1 && ValidCosts(k)
    requires forall i :: 0 <= i < |raw| ==> raw[i].close > 0.0
    ensures TimeSorted(ExpectedRun(raw, shortWindow, longWindow, k, forecastDays, delta, fit).candles)
    ensures multiset(ExpectedRun(raw, shortWindow, longWindow, k, forecastDays, delta, fit).candles)
         == multiset(ToCandles(raw))
  {
    SortByTimeSorted(ToCandles(raw));
  }

  /** What every completed run promises, derived from the specification above. */
  lemma RunFacts(bars: seq<Bar>, k: Costs)
    requires ValidRun(bars, k) && |bars| > 0
    ensures Positive(EquitySeries(bars, k))
    ensures Ledger(StateAt(bars, k, |bars| - 1).trades, k)
    ensures CountSells(StateAt(bars, k, |bars| - 1).trades) == |StateAt(bars, k, |bars| - 1).trades| / 2
    ensures -100.0 < MaxDrawdownPct(EquitySeries(bars, k)) <= 0.0
    ensures StateAt(bars, k, |bars| - 1).trades == [] ==>
      && (forall j :: 0 <= j < |bars| ==> EquitySeries(bars, k)[j] == k.initialCapital)
      && MetricsOf(EquitySeries(bars, k), [], k) == Metrics(0.0, 0, 0.0)
  {
    RunEquityFacts(bars, k);
    RunLedgerFacts(bars, k);
    if StateAt(bars, k, |bars| - 1).trades == [] {
      RunFlatFacts(bars, k);
    }
  }

  lemma RunEquityFacts(bars: seq<Bar>, k: Costs)
    requires ValidRun(bars, k) && |bars| > 0
    ensures Positive(EquitySeries(bars, k))
    ensures -100.0 < MaxDrawdownPct(EquitySeries(bars, k)) <= 0.0
  {
    var e := EquitySeries(bars, k);
    forall j | 0 <= j < |bars|
      ensures e[j] > 0.0
    {
      EquityPositive(bars, k, j);
    }
    MaxDrawdownRange(e);
  }

  lemma RunLedgerFacts(bars: seq<Bar>, k: Costs)
    requires ValidRun(bars, k) && |bars| > 0
    ensures Ledger(StateAt(bars, k, |bars| - 1).trades, k)
    ensures CountSells(StateAt(bars, k, |bars| - 1).trades) == |StateAt(bars, k, |bars| - 1).trades| / 2
  {
    var trades := StateAt(bars, k, |bars| - 1).trades;
    StateConsistent(bars, k, |bars| - 1);
    LedgerAlternates(trades, k);
    CountSellsHalf(trades);
  }

  lemma RunFlatFacts(bars: seq<Bar>, k: Costs)
    requires ValidRun(bars, k) && |bars| > 0
    requires StateAt(bars, k, |bars| - 1).trades == []
    ensures forall j :: 0 <= j < |bars| ==> EquitySeries(bars, k)[j] == k.initialCapital
    ensures MetricsOf(EquitySeries(bars, k), [], k) == Metrics(0.0, 0, 0.0)
  {
    var e := EquitySeries(bars, k);
    forall j | 0 <= j < |bars|
      ensures e[j] == k.initialCapital
    {
      NoTradesFlatEquity(bars, k, j);
    }
    FlatMetrics(e, k);
  }

  /** The trading loop: one pass over the rows from the second on. */
  method Simulate(bars: seq<Bar>, k: Costs) returns (trades: seq<Trade>, equity: seq<real>)
    requires ValidRun(bars, k) && |bars| > 0
    ensures trades == StateAt(bars, k, |bars| - 1).trades
    ensures equity == EquitySeries(bars, k)
  {
    var n := |bars|;
    var balance := k.initialCapital;
    var position := 0.0;
    var positionPrice: Option<real> := None;
    trades := [];
    equity := seq(n, _ => balance);
    var i := 1;
    while i < n
      invariant 1 <= i <= n
      invariant SimState(Holding(balance, position, positionPrice), trades) == StateAt(bars, k, i - 1)
      invariant |equity| == n
      invariant forall j :: 0 <= j < i ==> equity[j] == EquityAt(bars, k, j)
    {
      var prev := bars[i - 1];
      var cur := bars[i];
      var price := cur.close;
      MulPositive(price, 1.0 + k.slippage);
      ghost var before := SimState(Holding(balance, position, positionPrice), trades);
      ghost var after := StateAt(bars, k, i);
      assert after == Step(before, prev, cur, k);
      BoughtShape(before, cur.time, price, k);
      SoldShape(before, cur.time, price, k);
      if cur.short > cur.long && prev.short <= prev.long && position == 0.0 {
        var size := BuySize(balance, price, k);
        position := size;
        positionPrice := Some(price);
        balance := 0.0;
        trades := trades + [Buy(cur.time, price, size)];
        assert SimState(Holding(balance, position, positionPrice), trades) == after;
      } else if cur.short < cur.long && prev.short >= prev.long && position > 0.0 {
        var sellPrice := SellPrice(price, k);
        var proceeds := Proceeds(position, sellPrice, k);
        var pnl := proceeds - EntryCost(position, positionPrice);
        trades := trades + [Sell(cur.time, sellPrice, position, pnl)];
        balance := proceeds;
        position := 0.0;
        positionPrice := None;
        assert SimState(Holding(balance, position, positionPrice), trades) == after;
      }
      equity := equity[i := Value(Holding(balance, position, positionPrice), price)];
      i := i + 1;
    }
    assert equity == EquitySeries(bars, k);
  }

  /** The forecast tail of `days` points, one per interval after the last candle. */
  function ForecastSeries(lastTime: int, delta: int, line: Line, lookback: nat, days: nat): seq<ForecastPoint>
  {
    seq(days, i requires 0 <= i < days => ForecastAt(lastTime, delta, line, lookback, i))
  }

  /** The forecast loop: `days` points past the last candle. */
  method Forecast(lastTime: int, delta: int, line: Line, lookback: nat, days: int) returns (points: seq<ForecastPoint>)
    requires days >= 0
    ensures |points| == days
    ensures forall i :: 0 <= i < days ==> points[i] == ForecastAt(lastTime, delta, line, lookback, i)
    ensures points == ForecastSeries(lastTime, delta, line, lookback, days)
  {
    points := [];
    for j := 0 to days
      invariant |points| == j
      invariant forall m :: 0 <= m < j ==> points[m] == ForecastAt(lastTime, delta, line, lookback, m)
    {
      var ft := lastTime + delta * (j + 1);
      var price := line.intercept + line.slope * ((lookback + j) as real);
      points := points + [ForecastPoint(ft, price, price * 1.02, price * 0.98)];
    }
  }

  /** The body of run_backtest once the inputs are known to be usable. */
  method RunChecked(raw: seq<RawCandle>, shortWindow: int, longWindow: int, k: Costs,
                    forecastDays: nat, delta: int, fit: seq<real> -> Line)
    returns (result: BacktestResult)
    requires raw != [] && shortWindow >= 1 && longWindow >= 1 && ValidCosts(k)
    requires forall i :: 0 <= i < |raw| ==> raw[i].close > 0.0
    ensures result == ExpectedRun(raw, shortWindow, longWindow, k, forecastDays, delta, fit)
  {
    var candles := SortByTime(ToCandles(raw));
    ToCandlesSortedPositive(raw);
    var bars := MakeBars(candles, shortWindow, longWindow);
    var n := |candles|;
    assert ValidRun(bars, k);

    var trades, equity := Simulate(bars, k);
    RunEquityFacts(bars, k);
    var metrics := MetricsOf(equity, trades, k);

    var lookback := MinInt(MaxLookback, n);
    var line := fit(Closes(candles)[n - lookback..]);
    var lastTime := candles[n - 1].timestamp;
    var points := Forecast(lastTime, delta, line, lookback, forecastDays);
    ForecastOfLine(candles, delta, fit, forecastDays, line);

    result := BacktestResult(candles, trades, EquityCurve(candles, equity), Some(metrics), points);
    ghost var expected := ExpectedRun(raw, shortWindow, longWindow, k, forecastDays, delta, fit);
    assert expected.candles == candles;
    assert expected.trades == trades;
    assert expected.equity == result.equity;
    assert expected.metrics == result.metrics;
    assert expected.forecast == points;
  }

  /**
   * run_backtest: sort the candles, add the two rolling means, trade the
   * crossovers bar by bar, then compute the metrics and the forecast tail.
   * Every failure is a ValueError and the simulation has no effects, so the
   * inputs are checked before it runs.
   */
  method RunBacktest(raw: seq<RawCandle>, shortWindow: int, longWindow: int, k: Costs,
                     forecastDays: int, interval: string, fit: seq<real> -> Line)
    returns (r: Outcome<BacktestResult>)
    requires ValidCosts(k)
    requires forall i :: 0 <= i < |raw| ==> raw[i].close > 0.0
    ensures raw == [] ==> r == Ok(EmptyResult)
    ensures r.Ok? <==>
      raw == [] || (shortWindow >= 1 && longWindow >= 1 && forecastDays >= 1 && ParseInterval(interval).Ok?)
    ensures r.Raised? ==> r.error == ValueError
    ensures r.Ok? && raw != [] ==>
      r.value == ExpectedRun(raw, shortWindow, longWindow, k, forecastDays, ParseInterval(interval).value, fit)
    ensures r.Ok? && raw != [] ==> Promised(r.value, |raw|, k)
  {
    if raw == [] {
      return Ok(EmptyResult);
    }
    if shortWindow < 1 || longWindow < 1 {
      return Raised(ValueError);
    }
    if forecastDays <= 0 {
      return Raised(ValueError);
    }
    var delta := ParseInterval(interval);
    if delta.Raised? {
      return Raised(ValueError);
    }
    var result := RunChecked(raw, shortWindow, longWindow, k, forecastDays, delta.value, fit);
    ExpectedRunPromises(raw, shortWindow, longWindow, k, forecastDays, delta.value, fit);
    r := Ok(result);
  }
}
