/**
 * The rule evaluator: each entry condition is dispatched on its (type, rule) pair to a
 * check that yields a condition result or raises; the evaluation folds the outcomes into
 * the met and missed lists, the weighted score and the per-type details.
 */
module Evaluator {
  import opened Wrappers
  import opened PyData
  import opened MarketData
  import opened StrategyModels
  import opened Patterns

  /** The indicator calculator, left uninterpreted: bars and a symbol to indicators, or a raised error. */
  type Calculator = (seq<OHLCV>, string) -> Result<TechnicalIndicators, string>

  /** A rule evaluator for one strategy, with its calculator and pattern detector. */
  datatype RuleEvaluator = RuleEvaluator(strategy: Strategy, indicatorCalc: Calculator, detector: Detector)

  /** What a stock presents to the evaluator. */
  datatype MarketInputs = MarketInputs(quote: Quote, historical: seq<OHLCV>, indicators: TechnicalIndicators)

  /** The outcome of one condition check; `reason` explains a miss. */
  datatype ConditionResult = ConditionResult(matches: bool, value: Value, reason: Option<Reason>)

  /** A condition result explains itself exactly when it did not match. */
  predicate WellFormed(cr: ConditionResult) {
    cr.matches <==> cr.reason.None?
  }

  function Dict1(k1: string, v1: Value): Value {
    VDict(map[k1 := v1])
  }

  function Dict2(k1: string, v1: Value, k2: string, v2: Value): Value {
    VDict(map[k1 := v1, k2 := v2])
  }

  function OptionalFloat(x: Option<real>): Value {
    match x
    case None => VNone
    case Some(f) => VFloat(f)
  }

  /** The Python value of `x or 0` for an optional float: a missing or zero SMA becomes the int 0. */
  function OrZero(x: Option<real>): (v: Value)
    ensures AsNum(v).Some? && AsNum(v).value.Finite?
  {
    if x.Some? && x.value != 0.0 then VFloat(x.value) else VInt(0)
  }

  /** The number `x or 0` stands for. */
  function OrZeroNumber(x: Option<real>): real {
    if x.Some? then x.value else 0.0
  }

  function Verdict(matches: bool, value: Value, why: Reason): ConditionResult {
    ConditionResult(matches, value, if matches then None else Some(why))
  }

  // ---------------------------------------------------------------- Trend

  const SmaRule: string := "sma_20 > sma_60"
  const BullishRule: string := "is_bullish"

  /** Trend: SMA-20 strictly above SMA-60 with missing values read as 0, or the bullish-trend predicate. */
  function CheckTrend(c: Condition, ind: TechnicalIndicators): (r: ConditionResult)
    ensures WellFormed(r)
    ensures c.rule == SmaRule ==> (r.matches <==> OrZeroNumber(ind.sma20) > OrZeroNumber(ind.sma60))
    ensures c.rule == BullishRule ==> (r.matches <==> ind.IsBullishTrend())
    ensures c.rule != SmaRule && c.rule != BullishRule ==> r == ConditionResult(false, VNone, Some(UnknownRule("trend", c.rule)))
  {
    if c.rule == SmaRule then
      var a := OrZeroNumber(ind.sma20);
      var b := OrZeroNumber(ind.sma60);
      Verdict(a > b, Dict2("sma_20", OrZero(ind.sma20), "sma_60", OrZero(ind.sma60)), SmaNotAbove(a, b))
    else if c.rule == BullishRule then
      var m := ind.IsBullishTrend();
      Verdict(m, Dict1("is_bullish", VBool(m)), NotBullish)
    else ConditionResult(false, VNone, Some(UnknownRule("trend", c.rule)))
  }

  // ---------------------------------------------------------------- Oversold

  const RsiBelowRule: string := "rsi < threshold"
  const RsiWasBelowRule: string := "rsi_was_below"
  const IsOversoldRule: string := "is_oversold"

  /** Bars the calculator needs before a lookback window is tried. */
  const MinRsiBars: int := 15

  /**
   * Window `i` of the backward scan: the prefix `historical[:i+1]`, tried only when it
   * holds at least 15 bars. It hits when the calculator succeeds and reports an RSI
   * strictly below the threshold; a raised error or a threshold that cannot be compared
   * is no hit (the loop continues).
   */
  function RsiHit(hist: seq<OHLCV>, indicatorCalc: Calculator, threshold: Value, i: int): (r: Option<real>)
    ensures r.Some? ==> MinRsiBars - 1 <= i < |hist|
  {
    if MinRsiBars - 1 <= i < |hist| then
      match indicatorCalc(hist[..i + 1], "lookback")
      case Err(_) => None
      case Ok(t) =>
        if t.rsi14.Some? && Less(t.rsi14.value, threshold) == Ok(true) then Some(t.rsi14.value) else None
    else None
  }

  /** `for i in range(i, stop, -1)`: the RSI of the first window that hits, scanning downward. */
  function RsiScan(hist: seq<OHLCV>, indicatorCalc: Calculator, threshold: Value, i: int, stop: int): (r: Option<real>)
    decreases i - stop
  {
    if i <= stop then None
    else match RsiHit(hist, indicatorCalc, threshold, i)
      case Some(v) => Some(v)
      case None => RsiScan(hist, indicatorCalc, threshold, i - 1, stop)
  }

  /** The backward loop of `rsi_was_below`, with its early return. */
  method RsiWasBelow(hist: seq<OHLCV>, indicatorCalc: Calculator, threshold: Value, start: int, stop: int)
    returns (found: Option<real>)
    ensures found == RsiScan(hist, indicatorCalc, threshold, start, stop)
  {
    var i := start;
    while i > stop
      invariant i == start || stop <= i < start
      invariant RsiScan(hist, indicatorCalc, threshold, start, stop) == RsiScan(hist, indicatorCalc, threshold, i, stop)
      decreases i - stop
    {
      if MinRsiBars - 1 <= i < |hist| {
        var subset := hist[..i + 1];
        var res := indicatorCalc(subset, "lookback");
        if res.Ok? && res.value.rsi14.Some? && Less(res.value.rsi14.value, threshold) == Ok(true) {
          return Some(res.value.rsi14.value);
        }
      }
      i := i - 1;
    }
    return None;
  }

  /** A scan finds the first hitting window, from the top down, and nothing when there is none. */
  lemma {:induction false} RsiScanFirstHit(hist: seq<OHLCV>, indicatorCalc: Calculator, threshold: Value, i: int, stop: int)
    ensures RsiScan(hist, indicatorCalc, threshold, i, stop).None? <==>
      forall j :: stop < j <= i ==> RsiHit(hist, indicatorCalc, threshold, j).None?
    ensures RsiScan(hist, indicatorCalc, threshold, i, stop).Some? ==>
      exists j :: stop < j <= i
        && RsiHit(hist, indicatorCalc, threshold, j) == RsiScan(hist, indicatorCalc, threshold, i, stop)
        && forall j' :: j < j' <= i ==> RsiHit(hist, indicatorCalc, threshold, j').None?
    decreases i - stop
  {
    if i > stop {
      RsiScanFirstHit(hist, indicatorCalc, threshold, i - 1, stop);
      if RsiHit(hist, indicatorCalc, threshold, i).None? {
        if RsiScan(hist, indicatorCalc, threshold, i, stop).Some? {
          var j :| stop < j <= i - 1
            && RsiHit(hist, indicatorCalc, threshold, j) == RsiScan(hist, indicatorCalc, threshold, i - 1, stop)
            && forall j' :: j < j' <= i - 1 ==> RsiHit(hist, indicatorCalc, threshold, j').None?;
          assert forall j' :: j < j' <= i ==> RsiHit(hist, indicatorCalc, threshold, j').None?;
        }
      }
    }
  }

  /** Windows never reach into the last `len - i - 1` bars: bars after position `i` do not matter. */
  lemma {:induction false} RsiScanIgnoresLaterBars(h1: seq<OHLCV>, h2: seq<OHLCV>, indicatorCalc: Calculator, threshold: Value, i: int, stop: int)
    requires |h1| == |h2| && 0 <= stop && 0 <= i < |h1|
    requires h1[..i + 1] == h2[..i + 1]
    ensures RsiScan(h1, indicatorCalc, threshold, i, stop) == RsiScan(h2, indicatorCalc, threshold, i, stop)
    decreases i - stop
  {
    if i > stop {
      assert RsiHit(h1, indicatorCalc, threshold, i) == RsiHit(h2, indicatorCalc, threshold, i);
      assert h1[..i] == h1[..i + 1][..i] && h2[..i] == h2[..i + 1][..i];
      RsiScanIgnoresLaterBars(h1, h2, indicatorCalc, threshold, i - 1, stop);
    }
  }

  /**
   * `lookback = min(lookback_days, len - 15) if lookback_days > 0 else len - 15`, with
   * Python's `min` (the first argument on a tie) and a TypeError for a non-numeric
   * `lookback_days`.
   */
  function RsiLookback(lookbackDays: Value, room: int): (r: Result<Value, string>)
    ensures r.Err? <==> AsNum(lookbackDays).None?
    ensures r.Ok? && AsInt(r.value).Some? && room >= 0 ==> AsInt(r.value).value >= 0
  {
    match ValueGreater(lookbackDays, 0.0)
    case Err(e) => Err(e)
    case Ok(positive) =>
      if !positive then Ok(VInt(room))
      else if Less(room as real, lookbackDays) == Ok(true) then Ok(VInt(room))
      else Ok(lookbackDays)
  }

  /** Python's `max(x, 0)` on ints. */
  function MaxZero(x: int): int {
    if x > 0 then x else 0
  }

  /**
   * The stop of the scan, `max(room - lookback - 1, 0)`, as `range` receives it. Python's
   * `max` keeps its first argument unless the second is strictly greater, so a float
   * difference below zero gives the int 0 and the scan runs; a float difference of zero or
   * more stays a float, which `range` refuses with a TypeError.
   */
  function RsiStop(room: int, lookback: Value): (r: Result<int, string>)
    ensures r.Err? <==> AsNum(lookback).None? || (lookback.VFloat? && (room as real) - lookback.f - 1.0 >= 0.0)
    ensures AsInt(lookback).Some? ==> r == Ok(MaxZero(room - AsInt(lookback).value - 1))
    ensures r.Ok? ==> r.value >= 0
    ensures r.Ok? && AsNum(lookback).Some? && AsNum(lookback).value.Finite? ==>
      r.value as real >= (room as real) - AsNum(lookback).value.r - 1.0
  {
    match lookback
    case VBool(_) => Ok(MaxZero(room - AsInt(lookback).value - 1))
    case VInt(lb) => Ok(MaxZero(room - lb - 1))
    case VFloat(f) => if (room as real) - f - 1.0 < 0.0 then Ok(0) else Err(TypeErrorMessage)
    case VInf => Ok(0)
    case _ => Err(TypeErrorMessage)
  }

  /**
   * `rsi_was_below`: fewer than 15 bars is a miss; otherwise the scan runs from
   * `i = len - 15` down to the stop of `RsiStop` exclusive, and a stop that is not an
   * int raises TypeError in `range`.
   */
  function CheckRsiWasBelow(hist: seq<OHLCV>, indicatorCalc: Calculator, lookbackDays: Value, threshold: Value): (r: Result<ConditionResult, string>)
    ensures |hist| < MinRsiBars ==> r == Ok(ConditionResult(false, Dict1("data_points", VInt(|hist|)), Some(InsufficientRsiHistory)))
    ensures r.Ok? ==> WellFormed(r.value)
    ensures |hist| >= MinRsiBars && AsNum(lookbackDays).None? ==> r == Err(TypeErrorMessage)
    ensures r.Ok? && r.value.matches ==> |hist| >= MinRsiBars
  {
    var n := |hist|;
    if n < MinRsiBars then
      Ok(ConditionResult(false, Dict1("data_points", VInt(n)), Some(InsufficientRsiHistory)))
    else match RsiLookback(lookbackDays, n - MinRsiBars)
      case Err(e) => Err(e)
      case Ok(lookback) =>
        match RsiStop(n - MinRsiBars, lookback)
        case Err(e) => Err(e)
        case Ok(stop) => RsiVerdict(RsiScan(hist, indicatorCalc, threshold, n - MinRsiBars, stop), threshold, lookback)
  }

  /** The condition result of a finished scan. */
  function RsiVerdict(found: Option<real>, threshold: Value, lookback: Value): (r: Result<ConditionResult, string>)
    ensures r.Ok? && WellFormed(r.value) && (r.value.matches <==> found.Some?)
  {
    match found
    case Some(rsi) => Ok(ConditionResult(true, Dict2("rsi_found", VFloat(rsi), "threshold", threshold), None))
    case None => Ok(ConditionResult(false, Dict2("threshold", threshold, "lookback_days", lookback), Some(RsiNeverBelow(threshold))))
  }

  /**
   * Oversold: `lookback_days` and `threshold` are read first (an AttributeError for
   * parameters that are not a dict), then the rule is dispatched.
   */
  function CheckOversold(c: Condition, ind: TechnicalIndicators, hist: seq<OHLCV>, indicatorCalc: Calculator): (r: Result<ConditionResult, string>)
    ensures r.Ok? ==> WellFormed(r.value)
    ensures !c.parameters.VDict? ==> r.Err?
  {
    match Get(c.parameters, "lookback_days", VInt(0))
    case Err(e) => Err(e)
    case Ok(lookbackDays) =>
      var threshold := Get(c.parameters, "threshold", VFloat(DefaultOversoldThreshold)).value;
      if c.rule == RsiBelowRule then
        match ind.rsi14
        case None => Ok(ConditionResult(false, Dict1("rsi", VNone), Some(RsiNotAvailable)))
        case Some(rsi) =>
          match Less(rsi, threshold)
          case Err(e) => Err(e)
          case Ok(m) => Ok(Verdict(m, Dict2("rsi", VFloat(rsi), "threshold", threshold), RsiNotBelow(rsi, threshold)))
      else if c.rule == RsiWasBelowRule then
        CheckRsiWasBelow(hist, indicatorCalc, lookbackDays, threshold)
      else if c.rule == IsOversoldRule then
        var m := if ind.rsi14.None? then Ok(false) else Less(ind.rsi14.value, threshold);
        match m
        case Err(e) => Err(e)
        case Ok(b) => Ok(Verdict(b, Dict2("rsi", OptionalFloat(ind.rsi14), "threshold", threshold), NotOversold(ind.rsi14, threshold)))
      else Ok(ConditionResult(false, VNone, Some(UnknownRule("oversold", c.rule))))
  }

  /** RSI below threshold: the default threshold is 30, and a missing RSI is a miss. */
  lemma {:induction false} RsiBelowDefault(c: Condition, ind: TechnicalIndicators, hist: seq<OHLCV>, indicatorCalc: Calculator)
    requires c.rule == RsiBelowRule && c.parameters == VDict(map[])
    ensures ind.rsi14.None? ==> CheckOversold(c, ind, hist, indicatorCalc) == Ok(ConditionResult(false, Dict1("rsi", VNone), Some(RsiNotAvailable)))
    ensures ind.rsi14.Some? ==>
      && CheckOversold(c, ind, hist, indicatorCalc).Ok?
      && (CheckOversold(c, ind, hist, indicatorCalc).value.matches <==> ind.rsi14.value < 30.0)
  {
  }

  /** `is_oversold` agrees with the indicator predicate for a numeric threshold. */
  lemma {:induction false} IsOversoldDelegates(c: Condition, ind: TechnicalIndicators, hist: seq<OHLCV>, indicatorCalc: Calculator, t: real)
    requires c.rule == IsOversoldRule && c.parameters.VDict? && c.parameters.entries.Keys == {"threshold"}
    requires c.parameters.entries["threshold"] == VFloat(t)
    ensures CheckOversold(c, ind, hist, indicatorCalc).Ok?
    ensures CheckOversold(c, ind, hist, indicatorCalc).value.matches == ind.IsOversold(t)
  {
    if ind.rsi14.Some? {
      ComparisonsOnFinite(ind.rsi14.value, t, VFloat(t));
    }
  }

  /**
   * `rsi_was_below` can only match when some window of at least 15 bars hits, and the
   * newest window ends 14 bars before the end: so a history of fewer than 29 bars never
   * matches, and a match comes from the newest hitting window no older than the lookback.
   */
  lemma {:induction false} RsiWasBelowMatch(hist: seq<OHLCV>, indicatorCalc: Calculator, lookbackDays: Value, threshold: Value)
    requires CheckRsiWasBelow(hist, indicatorCalc, lookbackDays, threshold).Ok?
    requires CheckRsiWasBelow(hist, indicatorCalc, lookbackDays, threshold).value.matches
    ensures |hist| >= 2 * MinRsiBars - 1
    ensures var n := |hist|;
      var look := RsiLookback(lookbackDays, n - MinRsiBars);
      && look.Ok? && RsiStop(n - MinRsiBars, look.value).Ok?
      && (exists j :: RsiStop(n - MinRsiBars, look.value).value < j <= n - MinRsiBars
            && RsiHit(hist, indicatorCalc, threshold, j).Some?
            && forall j' :: j < j' <= n - MinRsiBars ==> RsiHit(hist, indicatorCalc, threshold, j').None?)
  {
    var n := |hist|;
    assert n >= MinRsiBars;
    RsiWasBelowUnfold(hist, indicatorCalc, lookbackDays, threshold);
    var look := RsiLookback(lookbackDays, n - MinRsiBars);
    assert look.Ok? && RsiStop(n - MinRsiBars, look.value).Ok?;
    var stop := RsiStop(n - MinRsiBars, look.value).value;
    assert RsiScan(hist, indicatorCalc, threshold, n - MinRsiBars, stop).Some?;
    RsiScanMatch(hist, indicatorCalc, threshold, stop);
  }

  /** A hit of the scan down to a stop: where it comes from, and the bars it needs. */
  lemma {:induction false} RsiScanMatch(hist: seq<OHLCV>, indicatorCalc: Calculator, threshold: Value, stop: int)
    requires |hist| >= MinRsiBars
    requires RsiScan(hist, indicatorCalc, threshold, |hist| - MinRsiBars, stop).Some?
    ensures |hist| >= 2 * MinRsiBars - 1
    ensures var n := |hist|;
      exists j :: stop < j <= n - MinRsiBars
        && RsiHit(hist, indicatorCalc, threshold, j).Some?
        && forall j' :: j < j' <= n - MinRsiBars ==> RsiHit(hist, indicatorCalc, threshold, j').None?
  {
    var n := |hist|;
    var found := RsiScan(hist, indicatorCalc, threshold, n - MinRsiBars, stop);
    RsiScanFirstHit(hist, indicatorCalc, threshold, n - MinRsiBars, stop);
    var j :| stop < j <= n - MinRsiBars && RsiHit(hist, indicatorCalc, threshold, j) == found
      && forall j' :: j < j' <= n - MinRsiBars ==> RsiHit(hist, indicatorCalc, threshold, j').None?;
    assert MinRsiBars - 1 <= j;
  }

  /** The 14 newest bars never enter a window: replacing them leaves `rsi_was_below` unchanged. */
  lemma {:induction false} RsiWasBelowIgnoresNewest(h1: seq<OHLCV>, h2: seq<OHLCV>, indicatorCalc: Calculator, lookbackDays: Value, threshold: Value)
    requires |h1| == |h2| >= MinRsiBars
    requires h1[..|h1| - 14] == h2[..|h2| - 14]
    ensures CheckRsiWasBelow(h1, indicatorCalc, lookbackDays, threshold) == CheckRsiWasBelow(h2, indicatorCalc, lookbackDays, threshold)
  {
    var n := |h1|;
    var look := RsiLookback(lookbackDays, n - MinRsiBars);
    if look.Ok? && RsiStop(n - MinRsiBars, look.value).Ok? {
      var stop := RsiStop(n - MinRsiBars, look.value).value;
      assert h1[..n - MinRsiBars + 1] == h2[..n - MinRsiBars + 1];
      RsiScanIgnoresLaterBars(h1, h2, indicatorCalc, threshold, n - MinRsiBars, stop);
    }
    RsiWasBelowUnfold(h1, indicatorCalc, lookbackDays, threshold);
    RsiWasBelowUnfold(h2, indicatorCalc, lookbackDays, threshold);
  }

  /** `rsi_was_below` on a history of at least 15 bars: the lookback error, or the verdict of the scan. */
  lemma {:induction false} RsiWasBelowUnfold(hist: seq<OHLCV>, indicatorCalc: Calculator, lookbackDays: Value, threshold: Value)
    requires |hist| >= MinRsiBars
    ensures var look := RsiLookback(lookbackDays, |hist| - MinRsiBars);
      CheckRsiWasBelow(hist, indicatorCalc, lookbackDays, threshold) ==
        if look.Err? then Err(look.error)
        else if RsiStop(|hist| - MinRsiBars, look.value).Err? then Err(RsiStop(|hist| - MinRsiBars, look.value).error)
        else RsiVerdict(RsiScan(hist, indicatorCalc, threshold, |hist| - MinRsiBars,
                                RsiStop(|hist| - MinRsiBars, look.value).value), threshold, look.value)
  {
  }

  /**
   * A float `lookback_days`: a positive one that fits the room stays a float, so unless it
   * lies within one bar of the room the stop is a float and `range` raises; within one
   * bar the stop is the int 0 and every window down to index 1 is scanned. Any other
   * float falls back to the int room.
   */
  lemma {:induction false} RsiFloatLookback(hist: seq<OHLCV>, indicatorCalc: Calculator, f: real, threshold: Value)
    requires |hist| >= MinRsiBars
    ensures var room := |hist| - MinRsiBars;
      CheckRsiWasBelow(hist, indicatorCalc, VFloat(f), threshold).Err? <==> 0.0 < f && f + 1.0 <= room as real
    ensures var room := |hist| - MinRsiBars;
      0.0 < f && (room as real) - 1.0 < f <= room as real ==>
        CheckRsiWasBelow(hist, indicatorCalc, VFloat(f), threshold)
          == RsiVerdict(RsiScan(hist, indicatorCalc, threshold, room, 0), threshold, VFloat(f))
  {
    var room := |hist| - MinRsiBars;
    RsiWasBelowUnfold(hist, indicatorCalc, VFloat(f), threshold);
    if 0.0 < f && f <= room as real {
      assert RsiLookback(VFloat(f), room) == Ok(VFloat(f));
    } else {
      assert RsiLookback(VFloat(f), room) == Ok(VInt(room));
    }
  }

  // ---------------------------------------------------------------- Bounce

  const BounceRule: string := "higher_high_higher_low"

  /**
   * Bounce: fewer than two bars is a miss before anything else is read; then `lookback`
   * (default 5) and `volume_confirmation` (default false) are read and the detector runs,
   * with the volume test when confirmation is asked for. Detector errors propagate.
   */
  function CheckBounce(c: Condition, hist: seq<OHLCV>, det: Detector): (r: Result<ConditionResult, string>)
    ensures |hist| < 2 ==> r == Ok(ConditionResult(false, Dict1("data_points", VInt(|hist|)), Some(InsufficientBounceData)))
    ensures r.Ok? ==> WellFormed(r.value)
    ensures r.Ok? && r.value.matches ==> c.rule == BounceRule && |hist| >= 2
  {
    if |hist| < 2 then Ok(ConditionResult(false, Dict1("data_points", VInt(|hist|)), Some(InsufficientBounceData)))
    else match Get(c.parameters, "lookback", VInt(DefaultDetector.defaultLookback))
      case Err(e) => Err(e)
      case Ok(lookback) =>
        var confirm := Get(c.parameters, "volume_confirmation", VBool(false)).value;
        var value := Dict2("lookback", lookback, "volume_confirmation", confirm);
        if c.rule == BounceRule then
          if Truthy(confirm) then
            var threshold := Get(c.parameters, "volume_threshold", VFloat(DefaultDetector.defaultVolumeThreshold)).value;
            match DetectBounceWithVolume(det, hist, lookback, threshold)
            case Err(e) => Err(e)
            case Ok(m) => Ok(Verdict(m, value, BounceNotDetected(true)))
          else
            match DetectBounce(det, hist, lookback)
            case Err(e) => Err(e)
            case Ok(m) => Ok(Verdict(m, value, BounceNotDetected(false)))
        else Ok(ConditionResult(false, VNone, Some(UnknownRule("bounce", c.rule))))
  }

  // ---------------------------------------------------------------- Price and volume

  const MinPriceRule: string := "min_price"
  const MaxPriceRule: string := "max_price"
  const MinVolumeRule: string := "min_volume"
  const VolumeSpikeRule: string := "volume_spike"

  /** Price: `value` is an inclusive minimum (default 0) or an inclusive maximum (default infinity). */
  function CheckPrice(c: Condition, q: Quote): (r: Result<ConditionResult, string>)
    ensures r.Ok? ==> WellFormed(r.value)
    ensures c.rule != MinPriceRule && c.rule != MaxPriceRule ==> r == Ok(ConditionResult(false, VNone, Some(UnknownRule("price", c.rule))))
  {
    if c.rule == MinPriceRule then
      match Get(c.parameters, "value", VInt(0))
      case Err(e) => Err(e)
      case Ok(minPrice) =>
        match GreaterEq(q.price, minPrice)
        case Err(e) => Err(e)
        case Ok(m) => Ok(Verdict(m, Dict2("price", VFloat(q.price), "min_price", minPrice), PriceBelowMinimum(q.price, minPrice)))
    else if c.rule == MaxPriceRule then
      match Get(c.parameters, "value", VInf)
      case Err(e) => Err(e)
      case Ok(maxPrice) =>
        match LessEq(q.price, maxPrice)
        case Err(e) => Err(e)
        case Ok(m) => Ok(Verdict(m, Dict2("price", VFloat(q.price), "max_price", maxPrice), PriceAboveMaximum(q.price, maxPrice)))
    else Ok(ConditionResult(false, VNone, Some(UnknownRule("price", c.rule))))
  }

  /** The price bounds are inclusive, and absent bounds are 0 and infinity. */
  lemma {:induction false} PriceBoundsInclusive(c: Condition, q: Quote, bound: real)
    ensures c.rule == MinPriceRule && c.parameters == VDict(map["value" := VFloat(bound)]) ==>
      CheckPrice(c, q).Ok? && (CheckPrice(c, q).value.matches <==> q.price >= bound)
    ensures c.rule == MaxPriceRule && c.parameters == VDict(map["value" := VFloat(bound)]) ==>
      CheckPrice(c, q).Ok? && (CheckPrice(c, q).value.matches <==> q.price <= bound)
    ensures c.rule == MinPriceRule && c.parameters == VDict(map[]) ==>
      CheckPrice(c, q).Ok? && (CheckPrice(c, q).value.matches <==> q.price >= 0.0)
    ensures c.rule == MaxPriceRule && c.parameters == VDict(map[]) ==>
      CheckPrice(c, q).Ok? && CheckPrice(c, q).value.matches
  {
  }

  /**
   * Volume: `min_volume` compares the quote's volume against `value` (default 0)
   * inclusively; `volume_spike` runs the volume test with `threshold` (default 1.2) and
   * turns any error of that test into a miss.
   */
  function CheckVolume(c: Condition, q: Quote, hist: seq<OHLCV>, det: Detector): (r: Result<ConditionResult, string>)
    ensures r.Ok? ==> WellFormed(r.value)
    ensures c.rule != MinVolumeRule && c.rule != VolumeSpikeRule ==> r == Ok(ConditionResult(false, VNone, Some(UnknownRule("volume", c.rule))))
    ensures c.rule == VolumeSpikeRule ==> (r.Ok? <==> c.parameters.VDict?)
  {
    if c.rule == MinVolumeRule then
      match Get(c.parameters, "value", VInt(0))
      case Err(e) => Err(e)
      case Ok(minVolume) =>
        match GreaterEq(q.volume as real, minVolume)
        case Err(e) => Err(e)
        case Ok(m) => Ok(Verdict(m, Dict2("volume", VInt(q.volume), "min_volume", minVolume), VolumeBelowMinimum(q.volume, minVolume)))
    else if c.rule == VolumeSpikeRule then
      match Get(c.parameters, "threshold", VFloat(DefaultDetector.defaultVolumeThreshold))
      case Err(e) => Err(e)
      case Ok(threshold) =>
        match ConfirmVolume(det, hist, threshold)
        case Err(e) => Ok(ConditionResult(false, VNone, Some(VolumeCheckFailed(e))))
        case Ok(m) => Ok(Verdict(m, Dict1("threshold", threshold), NoVolumeSpike(threshold)))
    else Ok(ConditionResult(false, VNone, Some(UnknownRule("volume", c.rule))))
  }

  /** The volume minimum is inclusive. */
  lemma {:induction false} MinVolumeInclusive(c: Condition, q: Quote, hist: seq<OHLCV>, det: Detector, bound: int)
    requires c.rule == MinVolumeRule && c.parameters == VDict(map["value" := VInt(bound)])
    ensures CheckVolume(c, q, hist, det).Ok?
    ensures CheckVolume(c, q, hist, det).value.matches <==> q.volume >= bound
  {
  }

  // ---------------------------------------------------------------- Dispatch

  /** The condition types the evaluator knows. */
  predicate KnownType(kind: string) {
    kind == "trend" || kind == "oversold" || kind == "bounce" || kind == "price" || kind == "volume"
  }

  /** `_evaluate_condition`: dispatch on the condition's type; an unknown type is a miss. */
  function EvaluateCondition(ev: RuleEvaluator, inputs: MarketInputs, c: Condition): (r: Result<ConditionResult, string>)
    ensures r.Ok? ==> WellFormed(r.value)
    ensures !KnownType(c.kind) ==> r == Ok(ConditionResult(false, VNone, Some(UnknownType(c.kind))))
  {
    if c.kind == "trend" then Ok(CheckTrend(c, inputs.indicators))
    else if c.kind == "oversold" then CheckOversold(c, inputs.indicators, inputs.historical, ev.indicatorCalc)
    else if c.kind == "bounce" then CheckBounce(c, inputs.historical, ev.detector)
    else if c.kind == "price" then CheckPrice(c, inputs.quote)
    else if c.kind == "volume" then CheckVolume(c, inputs.quote, inputs.historical, ev.detector)
    else Ok(ConditionResult(false, VNone, Some(UnknownType(c.kind))))
  }

  /** Rule names each known type understands. */
  predicate KnownRule(kind: string, rule: string) {
    || (kind == "trend" && (rule == SmaRule || rule == BullishRule))
    || (kind == "oversold" && (rule == RsiBelowRule || rule == RsiWasBelowRule || rule == IsOversoldRule))
    || (kind == "bounce" && rule == BounceRule)
    || (kind == "price" && (rule == MinPriceRule || rule == MaxPriceRule))
    || (kind == "volume" && (rule == MinVolumeRule || rule == VolumeSpikeRule))
  }

  /**
   * An unknown rule of a known type is a miss with a reason and never raises, provided
   * the parameters an oversold check reads first are a dict and a bounce check has the
   * two bars it looks for first.
   */
  lemma {:induction false} UnknownRuleIsMiss(ev: RuleEvaluator, inputs: MarketInputs, c: Condition)
    requires KnownType(c.kind) && !KnownRule(c.kind, c.rule)
    requires c.kind == "oversold" || c.kind == "bounce" ==> c.parameters.VDict?
    requires c.kind == "bounce" ==> |inputs.historical| >= 2
    ensures EvaluateCondition(ev, inputs, c) == Ok(ConditionResult(false, VNone, Some(UnknownRule(c.kind, c.rule))))
  {
  }
}
