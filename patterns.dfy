/**
 * Chart-pattern primitives of the pattern detector: the higher-high / higher-low bounce
 * over a clamped lookback window, and the volume-spike ratio test. The lookback and the
 * threshold arrive as loaded from a strategy's parameters, so they are Python values and
 * an ill-typed one raises TypeError exactly where Python would.
 */
module Patterns {
  import opened Wrappers
  import opened PyData
  import opened MarketData

  /** A detector with its default lookback and default volume threshold. */
  datatype Detector = Detector(defaultLookback: int, defaultVolumeThreshold: real)

  const DefaultDetector: Detector := Detector(5, 1.2)

  const TooFewBarsMessage: string := "Need at least 2 OHLCV bars to detect bounce pattern"
  const EmptyVolumeListMessage: string := "Cannot confirm volume with empty OHLCV list"
  const EmptyWindowMessage: string := "ValueError: max() arg is an empty sequence"
  const ZeroDivisionMessage: string := "ZeroDivisionError: division by zero"

  /** The outcome of a detailed bounce check. */
  datatype BouncePatternResult = BouncePatternResult(
    isBounce: bool,
    previousHigh: real,
    previousLow: real,
    currentHigh: real,
    currentLow: real,
    lookbackUsed: int)

  /** The greatest high of a non-empty run of bars. */
  function MaxHigh(w: seq<OHLCV>): (m: real)
    requires |w| > 0
    ensures forall j :: 0 <= j < |w| ==> w[j].high <= m
    ensures exists j :: 0 <= j < |w| && w[j].high == m
  {
    if |w| == 1 then w[0].high
    else
      var rest := MaxHigh(w[1..]);
      assert forall j :: 1 <= j < |w| ==> w[j] == w[1..][j - 1];
      if w[0].high >= rest then w[0].high else rest
  }

  /** The least low of a non-empty run of bars. */
  function MinLow(w: seq<OHLCV>): (m: real)
    requires |w| > 0
    ensures forall j :: 0 <= j < |w| ==> m <= w[j].low
    ensures exists j :: 0 <= j < |w| && w[j].low == m
  {
    if |w| == 1 then w[0].low
    else
      var rest := MinLow(w[1..]);
      assert forall j :: 1 <= j < |w| ==> w[j] == w[1..][j - 1];
      if w[0].low <= rest then w[0].low else rest
  }

  /**
   * The lookback actually used: `None` takes the detector default; a request that does
   * not fit in the history (`len < lookback + 1`, which `float('inf')` never fits) is
   * clamped to `len - 1`; otherwise it must be an int, since it is used as a slice bound.
   */
  function EffectiveLookback(d: Detector, n: nat, lookback: Value): (r: Result<int, string>)
    ensures r.Ok? ==> r.value <= n - 1
  {
    var lb := if lookback.VNone? then VInt(d.defaultLookback) else lookback;
    match AsNum(lb)
    case None => Err(TypeErrorMessage)
    case Some(PosInf) => Ok(n - 1)
    case Some(Finite(x)) =>
      if (n as real) < x + 1.0 then Ok(n - 1)
      else match AsInt(lb)
        case None => Err(TypeErrorMessage)
        case Some(k) => Ok(k)
  }

  /** The bars `ohlcv_list[-lookback - 1 : -1]` the last bar is compared against. */
  function BounceWindow(bars: seq<OHLCV>, lookback: int): (w: seq<OHLCV>)
    ensures |w| < |bars| || bars == []
  {
    Slice(bars, -lookback - 1, -1)
  }

  /** `detect_bounce_detailed`: fewer than two bars raise, and so does an empty comparison window. */
  function DetectBounceDetailed(d: Detector, bars: seq<OHLCV>, lookback: Value): (r: Result<BouncePatternResult, string>)
    ensures |bars| < 2 ==> r == Err(TooFewBarsMessage)
    ensures r.Ok? ==> |bars| >= 2 && r.value.lookbackUsed <= |bars| - 1
    ensures r.Ok? ==> r.value.currentHigh == bars[|bars| - 1].high && r.value.currentLow == bars[|bars| - 1].low
  {
    if |bars| < 2 then Err(TooFewBarsMessage)
    else match EffectiveLookback(d, |bars|, lookback)
      case Err(e) => Err(e)
      case Ok(lb) =>
        CompareWithWindow(bars[|bars| - 1], BounceWindow(bars, lb), lb)
  }

  /** The comparison of the last bar with its window; an empty window raises. */
  function CompareWithWindow(current: OHLCV, w: seq<OHLCV>, lb: int): (r: Result<BouncePatternResult, string>)
    ensures r.Err? <==> w == []
    ensures r.Ok? ==> r.value.lookbackUsed == lb && r.value.currentHigh == current.high && r.value.currentLow == current.low
  {
    if w == [] then Err(EmptyWindowMessage)
    else
      var previousHigh := MaxHigh(w);
      var previousLow := MinLow(w);
      Ok(BouncePatternResult(current.high > previousHigh && current.low > previousLow,
                             previousHigh, previousLow, current.high, current.low, lb))
  }

  /** `detect_bounce`: the flag of the detailed check. */
  function DetectBounce(d: Detector, bars: seq<OHLCV>, lookback: Value): (r: Result<bool, string>)
    ensures r.Ok? <==> DetectBounceDetailed(d, bars, lookback).Ok?
    ensures r.Ok? ==> r.value == DetectBounceDetailed(d, bars, lookback).value.isBounce
  {
    match DetectBounceDetailed(d, bars, lookback)
    case Err(e) => Err(e)
    case Ok(res) => Ok(res.isBounce)
  }

  /** Fewer than two bars always raise, whatever the lookback. */
  lemma {:induction false} BounceNeedsTwoBars(d: Detector, bars: seq<OHLCV>, lookback: Value)
    requires |bars| < 2
    ensures DetectBounce(d, bars, lookback) == Err(TooFewBarsMessage)
  {
  }

  /**
   * With an int lookback `k >= 1` the lookback used is
   * `min(k, len - 1)`, and the window is exactly that many bars just before the last one.
   */
  lemma {:induction false} BounceLookbackClamped(d: Detector, bars: seq<OHLCV>, k: int)
    requires |bars| >= 2 && k >= 1
    ensures var r := DetectBounceDetailed(d, bars, VInt(k));
      var used := if k < |bars| then k else |bars| - 1;
      && r.Ok?
      && r.value.lookbackUsed == used
      && BounceWindow(bars, used) == bars[|bars| - 1 - used .. |bars| - 1]
  {
    var used := if k < |bars| then k else |bars| - 1;
    assert EffectiveLookback(d, |bars|, VInt(k)) == Ok(used);
    SliceBeforeLast(bars, used);
  }

  /** An infinite lookback uses the whole history before the last bar. */
  lemma {:induction false} BounceInfiniteLookback(d: Detector, bars: seq<OHLCV>)
    requires |bars| >= 2
    ensures var r := DetectBounceDetailed(d, bars, VInf);
      r.Ok? && r.value.lookbackUsed == |bars| - 1
  {
    assert EffectiveLookback(d, |bars|, VInf) == Ok(|bars| - 1);
    SliceBeforeLast(bars, |bars| - 1);
  }

  /**
   * The bounce test, stated without max and min: the last high is strictly above every
   * high of the window, and the last low is strictly above at least one low of it (that
   * is, above the window's lowest low). Equal values give no bounce.
   */
  lemma {:induction false} BounceCharacterized(d: Detector, bars: seq<OHLCV>, lookback: Value)
    requires DetectBounceDetailed(d, bars, lookback).Ok?
    ensures var res := DetectBounceDetailed(d, bars, lookback).value;
      var w := BounceWindow(bars, res.lookbackUsed);
      var cur := bars[|bars| - 1];
      && w != []
      && (res.isBounce <==>
           (forall j :: 0 <= j < |w| ==> w[j].high < cur.high) && (exists j :: 0 <= j < |w| && w[j].low < cur.low))
  {
    var res := DetectBounceDetailed(d, bars, lookback).value;
    var lb := EffectiveLookback(d, |bars|, lookback).value;
    var w := BounceWindow(bars, lb);
    var cur := bars[|bars| - 1];
    assert res.lookbackUsed == lb;
    var mh := MaxHigh(w);
    var ml := MinLow(w);
    assert res.isBounce == (cur.high > mh && cur.low > ml);
    if (exists j :: 0 <= j < |w| && w[j].low < cur.low) {
      var j :| 0 <= j < |w| && w[j].low < cur.low;
      assert ml <= w[j].low;
    }
    if cur.low > ml {
      var j :| 0 <= j < |w| && w[j].low == ml;
      assert w[j].low < cur.low;
    }
    if (forall j :: 0 <= j < |w| ==> w[j].high < cur.high) {
      var j :| 0 <= j < |w| && w[j].high == mh;
      assert mh < cur.high;
    }
  }

  /** Bars older than the lookback window do not affect the outcome. */
  lemma {:induction false} BounceIgnoresOlderBars(d: Detector, older: seq<OHLCV>, bars: seq<OHLCV>, k: int)
    requires 1 <= k < |bars|
    ensures DetectBounceDetailed(d, older + bars, VInt(k)) == DetectBounceDetailed(d, bars, VInt(k))
  {
    var all := older + bars;
    BounceUnfold(d, bars, k);
    BounceUnfold(d, all, k);
    WindowIgnoresOlder(older, bars, k);
    assert all[|all| - 1] == bars[|bars| - 1];
  }

  /** The window of `k` bars before the last one lies inside the newest `k + 1` bars. */
  lemma {:induction false} WindowIgnoresOlder(older: seq<OHLCV>, bars: seq<OHLCV>, k: int)
    requires 1 <= k < |bars|
    ensures BounceWindow(older + bars, k) == BounceWindow(bars, k)
  {
    var all := older + bars;
    SliceBeforeLast(bars, k);
    SliceBeforeLast(all, k);
    assert all[|all| - 1 - k .. |all| - 1] == bars[|bars| - 1 - k .. |bars| - 1];
  }

  /** With an integer lookback that leaves room, the check compares the last bar with its window. */
  lemma {:induction false} BounceUnfold(d: Detector, bars: seq<OHLCV>, k: int)
    requires 1 <= k < |bars|
    ensures DetectBounceDetailed(d, bars, VInt(k)) == CompareWithWindow(bars[|bars| - 1], BounceWindow(bars, k), k)
  {
    assert EffectiveLookback(d, |bars|, VInt(k)) == Ok(k);
  }

  /** The total volume of a run of bars. */
  function SumVolume(w: seq<OHLCV>): (s: int)
    ensures (forall j :: 0 <= j < |w| ==> w[j].volume >= 0) ==> s >= 0
  {
    if w == [] then 0 else w[0].volume + SumVolume(w[1..])
  }

  /**
   * The bars averaged by `confirm_volume`: a history shorter than `period` shrinks the
   * period to `len - 1`; the window is `ohlcv_list[-period - 1 : -1]` when the history is
   * longer than `period + 1`, otherwise every bar but the last.
   */
  function VolumeWindow(bars: seq<OHLCV>, period: int): (w: seq<OHLCV>)
    requires |bars| >= 1
    ensures |w| <= |bars| - 1
  {
    var p := if |bars| < period then |bars| - 1 else period;
    if |bars| > p + 1 then Slice(bars, -p - 1, -1) else bars[..|bars| - 1]
  }

  /**
   * `confirm_volume` with the given period: an empty history raises ValueError; an empty
   * averaging window (a single bar, or a zero period) divides by zero; a zero average is
   * no spike; otherwise the spike is confirmed iff the current volume over the average
   * reaches the threshold.
   */
  function ConfirmVolumeWithPeriod(d: Detector, bars: seq<OHLCV>, threshold: Value, period: int): (r: Result<bool, string>)
    ensures bars == [] ==> r == Err(EmptyVolumeListMessage)
    ensures |bars| == 1 ==> r == Err(ZeroDivisionMessage)
  {
    var th := if threshold.VNone? then VFloat(d.defaultVolumeThreshold) else threshold;
    if bars == [] then Err(EmptyVolumeListMessage)
    else
      var w := VolumeWindow(bars, period);
      if w == [] then Err(ZeroDivisionMessage)
      else
        var avg := SumVolume(w) as real / |w| as real;
        if avg == 0.0 then Ok(false)
        else GreaterEq(bars[|bars| - 1].volume as real / avg, th)
  }

  /** The averaging period the core always uses. */
  const DefaultVolumePeriod: int := 20

  /** `confirm_volume` as the core calls it, with the default period of 20 bars. */
  function ConfirmVolume(d: Detector, bars: seq<OHLCV>, threshold: Value): (r: Result<bool, string>)
    ensures bars == [] ==> r == Err(EmptyVolumeListMessage)
    ensures |bars| == 1 ==> r == Err(ZeroDivisionMessage)
  {
    ConfirmVolumeWithPeriod(d, bars, threshold, DefaultVolumePeriod)
  }

  /** With a positive period the window is exactly the last `min(period, len - 1)` bars before the last. */
  lemma {:induction false} VolumeWindowExact(bars: seq<OHLCV>, period: int)
    requires |bars| >= 2 && period >= 1
    ensures var m := if period < |bars| - 1 then period else |bars| - 1;
      VolumeWindow(bars, period) == bars[|bars| - 1 - m .. |bars| - 1]
  {
    var p := if |bars| < period then |bars| - 1 else period;
    if |bars| > p + 1 {
      SliceBeforeLast(bars, p);
    }
  }

  /**
   * The outcome of the ratio test: a zero average gives false whatever the threshold; a
   * non-zero one compares `current / avg >= threshold`, inclusively, and a non-numeric
   * threshold raises TypeError.
   */
  lemma {:induction false} ConfirmVolumeRatio(d: Detector, bars: seq<OHLCV>, t: real)
    requires |bars| >= 2
    ensures var w := VolumeWindow(bars, DefaultVolumePeriod);
      var avg := SumVolume(w) as real / |w| as real;
      && w != []
      && (avg == 0.0 ==> ConfirmVolume(d, bars, VFloat(t)) == Ok(false))
      && (avg != 0.0 ==> ConfirmVolume(d, bars, VFloat(t)) == Ok(bars[|bars| - 1].volume as real / avg >= t))
      && ConfirmVolume(d, bars, VNone) == ConfirmVolume(d, bars, VFloat(d.defaultVolumeThreshold))
  {
    VolumeWindowExact(bars, DefaultVolumePeriod);
    var w := VolumeWindow(bars, DefaultVolumePeriod);
    assert |w| >= 1;
    var avg := SumVolume(w) as real / |w| as real;
    if avg != 0.0 {
      ComparisonsOnFinite(bars[|bars| - 1].volume as real / avg, t, VFloat(t));
    }
  }

  /** A threshold that is not a number raises only when the average is non-zero. */
  lemma {:induction false} ConfirmVolumeBadThreshold(d: Detector, bars: seq<OHLCV>, th: Value)
    requires |bars| >= 2 && AsNum(th).None? && !th.VNone?
    ensures var w := VolumeWindow(bars, DefaultVolumePeriod);
      var avg := SumVolume(w) as real / |w| as real;
      ConfirmVolume(d, bars, th) == (if avg == 0.0 then Ok(false) else Err(TypeErrorMessage))
  {
    VolumeWindowExact(bars, DefaultVolumePeriod);
  }

  /**
   * `detect_bounce_with_volume`: both checks run (the bounce with the given lookback, the
   * volume test with its own threshold), a failure of either raises, and the result is
   * their conjunction.
   */
  function DetectBounceWithVolume(d: Detector, bars: seq<OHLCV>, lookback: Value, volumeThreshold: Value): (r: Result<bool, string>)
    ensures r.Ok? <==> DetectBounce(d, bars, lookback).Ok? && ConfirmVolume(d, bars, volumeThreshold).Ok?
    ensures r.Ok? ==> (r.value <==> DetectBounce(d, bars, lookback).value && ConfirmVolume(d, bars, volumeThreshold).value)
    ensures DetectBounce(d, bars, lookback).Err? ==> r == DetectBounce(d, bars, lookback)
  {
    match DetectBounce(d, bars, lookback)
    case Err(e) => Err(e)
    case Ok(hasBounce) =>
      match ConfirmVolume(d, bars, volumeThreshold)
      case Err(e) => Err(e)
      case Ok(hasVolume) => Ok(hasBounce && hasVolume)
  }
}
