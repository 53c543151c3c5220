/**
 * Market-data value types: quotes, option contracts and chains, OHLCV bars, company
 * fundamentals and technical-indicator snapshots, with their derived properties.
 * Prices (Python `Decimal` and `float`) are reals; dates are day numbers.
 */
module MarketData {
  import opened Wrappers

  /** A calendar date as a day number: `(d1 - d0).days` is `d1 - d0`. */
  type Date = int

  function Abs(x: real): (r: real)
    ensures r >= 0.0 && (r == x || r == -x)
  {
    if x < 0.0 then -x else x
  }

  // ---------------------------------------------------------------- Quote

  datatype Quote = Quote(
    symbol: string,
    price: real,
    volume: int,
    open: real,
    high: real,
    low: real,
    close: real,
    previousClose: Option<real>,
    change: Option<real>,
    changePercent: Option<real>)

  /** Python's truthiness of an optional Decimal: present and non-zero. */
  predicate IsSetNonZero(x: Option<real>) {
    x.Some? && x.value != 0.0
  }

  /**
   * Construction of a quote, including the derivation of `change` and `change_percent`
   * that `__post_init__` performs when a non-zero previous close is known and they were
   * not supplied.
   */
  function NewQuote(
    symbol: string, price: real, volume: int, open: real, high: real, low: real, close: real,
    previousClose: Option<real>, change: Option<real>, changePercent: Option<real>): (q: Quote)
    ensures q.symbol == symbol && q.price == price && q.volume == volume
    ensures q.open == open && q.high == high && q.low == low && q.close == close
    ensures q.previousClose == previousClose
    ensures change.Some? ==> q.change == change
    ensures changePercent.Some? ==> q.changePercent == changePercent
    ensures !IsSetNonZero(previousClose) ==> q.change == change && q.changePercent == changePercent
    ensures IsSetNonZero(previousClose) && change.None? ==>
      q.change.Some? && previousClose.value + q.change.value == price
    ensures IsSetNonZero(previousClose) && changePercent.None? ==>
      q.changePercent.Some? && q.changePercent.value * previousClose.value == (price - previousClose.value) * 100.0
  {
    var change' :=
      if IsSetNonZero(previousClose) && change.None? then Some(price - previousClose.value) else change;
    var changePercent' :=
      if IsSetNonZero(previousClose) && changePercent.None?
      then Some((price - previousClose.value) / previousClose.value * 100.0)
      else changePercent;
    Quote(symbol, price, volume, open, high, low, close, previousClose, change', changePercent')
  }

  // ---------------------------------------------------------------- Options

  datatype OptionType = Call | Put

  datatype OptionContract = OptionContract(
    symbol: string,
    underlyingSymbol: string,
    strike: real,
    expiration: Date,
    optionType: OptionType,
    bid: real,
    ask: real,
    lastPrice: real,
    volume: int,
    openInterest: int,
    impliedVolatility: Option<real>,
    delta: Option<real>,
    gamma: Option<real>,
    theta: Option<real>,
    vega: Option<real>)
  {
    /** The mid price between bid and ask. */
    function MidPrice(): real {
      (bid + ask) / 2.0
    }

    /** The bid-ask spread. */
    function Spread(): real {
      ask - bid
    }

    /** The basic liquidity heuristic: at least 10 contracts traded and 100 open. */
    predicate IsLiquid() {
      volume >= 10 && openInterest >= 100
    }
  }

  /** Mid price and spread fit together: the mid lies half a spread above the bid and below the ask. */
  lemma {:induction false} MidPriceAndSpread(c: OptionContract)
    ensures c.MidPrice() == c.bid + c.Spread() / 2.0
    ensures c.MidPrice() == c.ask - c.Spread() / 2.0
    ensures c.bid <= c.ask ==> c.bid <= c.MidPrice() <= c.ask
  {
  }

  /** Liquidity is monotone in both counts, and the two thresholds are inclusive. */
  lemma {:induction false} IsLiquidThresholds(c: OptionContract)
    ensures c.IsLiquid() <==> c.volume >= 10 && c.openInterest >= 100
    ensures c.volume == 10 && c.openInterest == 100 ==> c.IsLiquid()
  {
  }

  datatype OptionChain = OptionChain(
    symbol: string,
    expiration: Date,
    underlyingPrice: real,
    calls: seq<OptionContract>,
    puts: seq<OptionContract>)

  /** The strikes of a sequence of contracts. */
  function Strikes(cs: seq<OptionContract>): (r: seq<real>)
    ensures |r| == |cs|
    ensures forall i :: 0 <= i < |cs| ==> r[i] == cs[i].strike
  {
    if cs == [] then [] else Strikes(cs[..|cs| - 1]) + [cs[|cs| - 1].strike]
  }

  /** `a` is at least as good an at-the-money strike as `b`: closer to `u`, or as close and lower. */
  predicate NoWorseStrike(a: real, b: real, u: real) {
    Abs(a - u) < Abs(b - u) || (Abs(a - u) == Abs(b - u) && a <= b)
  }

  /**
   * The strike of `ks` closest to `u`, the lower one on ties: what `min` over the sorted
   * set of strikes returns, since `min` keeps the first minimal element.
   */
  function ClosestStrike(ks: seq<real>, u: real): (r: real)
    requires ks != []
    ensures r in ks
    ensures forall k :: k in ks ==> NoWorseStrike(r, k, u)
  {
    if |ks| == 1 then ks[0]
    else
      var best := ClosestStrike(ks[..|ks| - 1], u);
      assert forall k :: k in ks ==> k in ks[..|ks| - 1] || k == ks[|ks| - 1];
      var last := ks[|ks| - 1];
      if Abs(last - u) < Abs(best - u) || (Abs(last - u) == Abs(best - u) && last < best)
      then last else best
  }

  /** `get_atm_strike`: the underlying price when the chain has no strikes at all. */
  function GetAtmStrike(chain: OptionChain): real {
    var all := Strikes(chain.calls + chain.puts);
    if all == [] then chain.underlyingPrice else ClosestStrike(all, chain.underlyingPrice)
  }

  /** The ATM strike over calls and puts: closest to the underlying, lower on ties, or the underlying itself. */
  lemma {:induction false} GetAtmStrikeSpec(chain: OptionChain)
    ensures chain.calls + chain.puts == [] ==> GetAtmStrike(chain) == chain.underlyingPrice
    ensures chain.calls + chain.puts != [] ==>
      (exists c :: c in chain.calls + chain.puts && c.strike == GetAtmStrike(chain))
    ensures forall c :: c in chain.calls + chain.puts ==>
      NoWorseStrike(GetAtmStrike(chain), c.strike, chain.underlyingPrice)
  {
    var all := chain.calls + chain.puts;
    var ks := Strikes(all);
    if all != [] {
      var r := GetAtmStrike(chain);
      assert r in ks;
      var i :| 0 <= i < |ks| && ks[i] == r;
      assert all[i] in all && all[i].strike == r;
    }
    forall c | c in all
      ensures NoWorseStrike(GetAtmStrike(chain), c.strike, chain.underlyingPrice)
    {
      var i :| 0 <= i < |all| && all[i] == c;
      assert ks[i] == c.strike;
    }
  }

  /** Index of the first put with strike `k`, if any. */
  function FirstPutAt(puts: seq<OptionContract>, k: real): (r: Option<nat>)
    ensures r.Some? ==>
      && r.value < |puts| && puts[r.value].strike == k
      && forall j :: 0 <= j < r.value ==> puts[j].strike != k
    ensures r.None? ==> forall j :: 0 <= j < |puts| ==> puts[j].strike != k
  {
    if puts == [] then None
    else if puts[0].strike == k then Some(0)
    else match FirstPutAt(puts[1..], k)
      case None => None
      case Some(j) => Some(j + 1)
  }

  /** `get_atm_put`: the first put at the ATM strike, or None when that strike has only calls. */
  function GetAtmPut(chain: OptionChain): (r: Option<OptionContract>)
    ensures r.Some? ==> r.value in chain.puts && r.value.strike == GetAtmStrike(chain)
    ensures r.None? <==> forall p :: p in chain.puts ==> p.strike != GetAtmStrike(chain)
    ensures r.Some? ==> exists i ::
      && 0 <= i < |chain.puts| && chain.puts[i] == r.value
      && forall j :: 0 <= j < i ==> chain.puts[j].strike != GetAtmStrike(chain)
  {
    match FirstPutAt(chain.puts, GetAtmStrike(chain))
    case None => None
    case Some(i) => Some(chain.puts[i])
  }

  // ---------------------------------------------------------------- Bars

  datatype OHLCV = OHLCV(
    open: real,
    high: real,
    low: real,
    close: real,
    volume: int,
    adjustedClose: Option<real>)
  {
    /** High minus low. */
    function PriceRange(): real {
      high - low
    }

    /** The candle body: the distance between open and close. */
    function BodySize(): real {
      Abs(close - open)
    }
  }

  /** The body never exceeds the range when open and close lie within the bar's range. */
  lemma {:induction false} BodyWithinRange(b: OHLCV)
    requires b.low <= b.open <= b.high && b.low <= b.close <= b.high
    ensures 0.0 <= b.BodySize() <= b.PriceRange()
  {
  }

  // ---------------------------------------------------------------- Fundamentals

  /** Company fundamentals; only the fields the screening criteria read are modelled. */
  datatype CompanyOverview = CompanyOverview(
    symbol: string,
    name: string,
    exchange: string,
    sector: Option<string>,
    industry: Option<string>,
    marketCap: Option<int>,
    revenue: Option<int>)

  /** Python's truthiness of an optional int: present and non-zero. */
  predicate IsSetNonZeroInt(x: Option<int>) {
    x.Some? && x.value != 0
  }

  /** One threshold of `meets_screener_criteria`: a set threshold fails a missing, zero or smaller value. */
  predicate PassesThreshold(actual: Option<int>, threshold: Option<int>) {
    !(IsSetNonZeroInt(threshold) && (!IsSetNonZeroInt(actual) || actual.value < threshold.value))
  }

  function MeetsScreenerCriteria(c: CompanyOverview, minRevenue: Option<int>, minMarketCap: Option<int>): bool {
    PassesThreshold(c.revenue, minRevenue) && PassesThreshold(c.marketCap, minMarketCap)
  }

  /**
   * Unset or zero thresholds are ignored; a set threshold is met exactly by a present,
   * non-zero value at least as large. A zero value is falsy, so it fails even a negative
   * threshold.
   */
  lemma {:induction false} MeetsScreenerCriteriaSpec(c: CompanyOverview, minRevenue: Option<int>, minMarketCap: Option<int>)
    ensures !IsSetNonZeroInt(minRevenue) && !IsSetNonZeroInt(minMarketCap) ==>
      MeetsScreenerCriteria(c, minRevenue, minMarketCap)
    ensures IsSetNonZeroInt(minRevenue) && (c.revenue.None? || c.revenue.value < minRevenue.value) ==>
      !MeetsScreenerCriteria(c, minRevenue, minMarketCap)
    ensures IsSetNonZeroInt(minMarketCap) && (c.marketCap.None? || c.marketCap.value < minMarketCap.value) ==>
      !MeetsScreenerCriteria(c, minRevenue, minMarketCap)
    ensures MeetsScreenerCriteria(c, minRevenue, minMarketCap) ==
      (MeetsScreenerCriteria(c, minRevenue, None) && MeetsScreenerCriteria(c, None, minMarketCap))
    ensures MeetsScreenerCriteria(c, minRevenue, None) <==>
      !IsSetNonZeroInt(minRevenue) || (IsSetNonZeroInt(c.revenue) && c.revenue.value >= minRevenue.value)
    ensures MeetsScreenerCriteria(c, None, minMarketCap) <==>
      !IsSetNonZeroInt(minMarketCap) || (IsSetNonZeroInt(c.marketCap) && c.marketCap.value >= minMarketCap.value)
    ensures minRevenue.Some? && minRevenue.value < 0 && c.revenue == Some(0) ==>
      !MeetsScreenerCriteria(c, minRevenue, minMarketCap)
    ensures minMarketCap.Some? && minMarketCap.value < 0 && c.marketCap == Some(0) ==>
      !MeetsScreenerCriteria(c, minRevenue, minMarketCap)
  {
  }

  /** Lowering a set threshold (keeping it set) never turns a pass into a failure. */
  lemma {:induction false} MeetsScreenerCriteriaMonotone(c: CompanyOverview, r1: int, r2: int, m: Option<int>)
    requires 0 < r2 <= r1
    ensures MeetsScreenerCriteria(c, Some(r1), m) ==> MeetsScreenerCriteria(c, Some(r2), m)
  {
  }

  // ---------------------------------------------------------------- Indicators

  datatype TechnicalIndicators = TechnicalIndicators(
    symbol: string,
    sma20: Option<real>,
    sma50: Option<real>,
    sma60: Option<real>,
    sma200: Option<real>,
    ema12: Option<real>,
    ema26: Option<real>,
    rsi14: Option<real>,
    macd: Option<real>,
    macdSignal: Option<real>,
    macdHistogram: Option<real>,
    volumeAvg20: Option<real>,
    volumeAvg50: Option<real>,
    bollingerUpper: Option<real>,
    bollingerMiddle: Option<real>,
    bollingerLower: Option<real>,
    atr14: Option<real>)
  {
    /** RSI strictly below the threshold (30 by default); false without an RSI. */
    predicate IsOversold(threshold: real) {
      rsi14.Some? && rsi14.value < threshold
    }

    /** RSI strictly above the threshold (70 by default); false without an RSI. */
    predicate IsOverbought(threshold: real) {
      rsi14.Some? && rsi14.value > threshold
    }

    /** SMA-20 strictly above SMA-60; false when either is missing. */
    predicate IsBullishTrend() {
      sma20.Some? && sma60.Some? && sma20.value > sma60.value
    }
  }

  const DefaultOversoldThreshold: real := 30.0
  const DefaultOverboughtThreshold: real := 70.0

  /** Oversold and overbought exclude each other whenever the thresholds are ordered, and equality counts as neither. */
  lemma {:induction false} IndicatorPredicates(t: TechnicalIndicators, low: real, high: real)
    requires low <= high
    ensures !(t.IsOversold(low) && t.IsOverbought(high))
    ensures t.rsi14 == Some(low) ==> !t.IsOversold(low)
    ensures t.rsi14 == Some(high) ==> !t.IsOverbought(high)
    ensures t.rsi14.None? ==> !t.IsOversold(low) && !t.IsOverbought(high)
    ensures t.sma20.None? || t.sma60.None? ==> !t.IsBullishTrend()
  {
  }
}
