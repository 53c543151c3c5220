/**
 * The option analyzer: an at-the-money band filter with a stable sort by distance from
 * spot, a days-to-expiry filter, a liquidity filter, an annualized-yield argmax with
 * strict-greater tie-breaking, and an argmax of the per-chain recommendations.
 */
module OptionAnalyzer {
  import opened Wrappers
  import opened Seqs
  import opened Sorting
  import opened MarketData
  import opened StrategyModels

  const InvalidUnderlyingMessage: string := "Invalid underlying price"
  const InvalidDaysMessage: string := "Invalid days to expiration"
  const ZeroPriceMessage: string := "ZeroDivisionError: float division by zero"

  // ---------------------------------------------------------------- Sort key

  /** The sort key of `find_atm_puts`: how far the strike is from spot. */
  function Distance(c: OptionContract, u: real): real {
    Abs(c.strike - u)
  }

  function DistanceKey(u: real): OptionContract -> real {
    (c: OptionContract) => Distance(c, u)
  }

  function SortByDistance(s: seq<OptionContract>, u: real): seq<OptionContract> {
    SortBy(s, DistanceKey(u))
  }

  // ---------------------------------------------------------------- At-the-money puts

  predicate InBandAt(c: OptionContract, u: real, tolerance: real) {
    u * (1.0 - tolerance) <= c.strike <= u * (1.0 + tolerance)
  }

  function InBandTest(u: real, tolerance: real): OptionContract -> bool {
    (c: OptionContract) => InBandAt(c, u, tolerance)
  }

  /** The puts whose strike lies in `[u(1 - t), u(1 + t)]`, inclusive, in chain order. */
  function InBand(puts: seq<OptionContract>, u: real, tolerance: real): seq<OptionContract> {
    Filter(puts, InBandTest(u, tolerance))
  }

  /** What `find_atm_puts` returns: an error for a non-positive spot, else the band sorted by distance. */
  function AtmPuts(chain: OptionChain, tolerance: real): Result<seq<OptionContract>, string> {
    var u := chain.underlyingPrice;
    if u <= 0.0 then Err(InvalidUnderlyingMessage) else Ok(SortByDistance(InBand(chain.puts, u, tolerance), u))
  }

  /** `find_atm_puts`: filter the chain's puts into the band, then sort them in place by distance. */
  method FindAtmPuts(chain: OptionChain, tolerance: real) returns (r: Result<seq<OptionContract>, string>)
    ensures r == AtmPuts(chain, tolerance)
  {
    var u := chain.underlyingPrice;
    if u <= 0.0 {
      return Err(InvalidUnderlyingMessage);
    }
    var band := InBand(chain.puts, u, tolerance);
    var a := new OptionContract[|band|](k requires 0 <= k < |band| => band[k]);
    assert a[..] == band;
    SortInPlace(a, DistanceKey(u));
    return Ok(a[..]);
  }

  /**
   * The at-the-money puts: a spot at or below zero raises; otherwise they are exactly the
   * chain's puts (calls play no part) with a strike in the inclusive band, each kept as
   * often as it occurs, closest to spot first, and those at one distance `d` in chain order.
   */
  lemma {:induction false} AtmPutsSpec(chain: OptionChain, tolerance: real, d: real)
    ensures var u := chain.underlyingPrice;
      var r := AtmPuts(chain, tolerance);
      && (r.Err? <==> u <= 0.0)
      && (r.Ok? ==>
        && multiset(r.value) == multiset(InBand(chain.puts, u, tolerance))
        && (forall i, j :: 0 <= i < j < |r.value| ==> Distance(r.value[i], u) <= Distance(r.value[j], u))
        && (forall c :: c in r.value <==> c in chain.puts && InBandAt(c, u, tolerance))
        && WithKey(r.value, DistanceKey(u), d) == WithKey(InBand(chain.puts, u, tolerance), DistanceKey(u), d))
  {
    var u := chain.underlyingPrice;
    if u > 0.0 {
      var band := InBand(chain.puts, u, tolerance);
      FilterMembers(chain.puts, InBandTest(u, tolerance));
      SortBySortedPermutation(band, DistanceKey(u));
      SortByMembers(band, DistanceKey(u));
      SortByStable(band, DistanceKey(u), d);
      assert SortedBy(SortByDistance(band, u), DistanceKey(u));
    }
  }

  // ---------------------------------------------------------------- Yield and filters

  /**
   * `calculate_premium_yield`: the mid price over the stock price, annualized over the
   * days to expiration; zero or negative days raise, and so does a zero stock price.
   */
  function PremiumYield(put: OptionContract, stockPrice: real, expiration: Date, today: Date): (r: Result<real, string>)
    ensures r.Ok? <==> expiration - today > 0 && stockPrice != 0.0
    ensures expiration - today <= 0 ==> r == Err(InvalidDaysMessage)
    ensures r.Ok? ==> r.value * stockPrice * ((expiration - today) as real) == put.MidPrice() * 365.0
  {
    var days := expiration - today;
    if days <= 0 then Err(InvalidDaysMessage)
    else if stockPrice == 0.0 then Err(ZeroPriceMessage)
    else
      var y := (put.MidPrice() / stockPrice) * (365.0 / days as real);
      assert y * stockPrice == put.MidPrice() * (365.0 / days as real);
      Ok(y)
  }

  predicate Liquid(c: OptionContract, minVolume: int, minOpenInterest: int) {
    c.volume >= minVolume && c.openInterest >= minOpenInterest
  }

  function LiquidTest(minVolume: int, minOpenInterest: int): OptionContract -> bool {
    (c: OptionContract) => Liquid(c, minVolume, minOpenInterest)
  }

  /** `filter_by_liquidity`: the contracts with volume and open interest at or above the minimums, in order. */
  function FilterByLiquidity(options: seq<OptionContract>, minVolume: int, minOpenInterest: int): (r: seq<OptionContract>)
    ensures |r| <= |options|
    ensures forall c :: c in r <==> c in options && c.volume >= minVolume && c.openInterest >= minOpenInterest
  {
    FilterMembers(options, LiquidTest(minVolume, minOpenInterest));
    Filter(options, LiquidTest(minVolume, minOpenInterest))
  }

  predicate InDteRange(c: OptionContract, minDte: int, maxDte: int, today: Date) {
    minDte <= c.expiration - today <= maxDte
  }

  function DteTest(minDte: int, maxDte: int, today: Date): OptionContract -> bool {
    (c: OptionContract) => InDteRange(c, minDte, maxDte, today)
  }

  /** The contracts whose days to expiry lie in `[minDte, maxDte]`, inclusive, in order. */
  function DteFilter(options: seq<OptionContract>, minDte: int, maxDte: int, today: Date): seq<OptionContract> {
    Filter(options, DteTest(minDte, maxDte, today))
  }

  /** `filter_by_dte`: the appending loop. */
  method FilterByDte(options: seq<OptionContract>, minDte: int, maxDte: int, today: Date) returns (filtered: seq<OptionContract>)
    ensures filtered == DteFilter(options, minDte, maxDte, today)
  {
    filtered := [];
    var i := 0;
    while i < |options|
      invariant 0 <= i <= |options|
      invariant filtered == DteFilter(options[..i], minDte, maxDte, today)
    {
      var dte := options[i].expiration - today;
      if minDte <= dte <= maxDte {
        filtered := filtered + [options[i]];
      }
      assert options[..i + 1][..i] == options[..i];
      i := i + 1;
    }
    assert options[..i] == options;
  }

  /** The days-to-expiry filter keeps exactly the contracts in range, and in order. */
  lemma {:induction false} DteFilterSpec(options: seq<OptionContract>, more: seq<OptionContract>, minDte: int, maxDte: int, today: Date)
    ensures forall c :: c in DteFilter(options, minDte, maxDte, today) <==>
      c in options && minDte <= c.expiration - today <= maxDte
    ensures DteFilter(options + more, minDte, maxDte, today)
         == DteFilter(options, minDte, maxDte, today) + DteFilter(more, minDte, maxDte, today)
  {
    FilterMembers(options, DteTest(minDte, maxDte, today));
    FilterAppend(options, more, DteTest(minDte, maxDte, today));
  }

  // ---------------------------------------------------------------- Strict-greater argmax

  /** The state of a running best: the index chosen so far, and its score (0.0 before any). */
  datatype Pick = Pick(index: Option<nat>, best: real)

  /**
   * The running best of `best = 0.0; for s in scores: if s is eligible and s > best: pick`.
   * A `None` score is not eligible.
   */
  function ArgMax(scores: seq<Option<real>>): (p: Pick)
    ensures p.index.Some? ==> p.index.value < |scores|
    decreases |scores|
  {
    if scores == [] then Pick(None, 0.0)
    else
      var prev := ArgMax(scores[..|scores| - 1]);
      var s := scores[|scores| - 1];
      if s.Some? && s.value > prev.best then Pick(Some(|scores| - 1), s.value) else prev
  }

  /**
   * The pick is the first eligible score that is strictly positive and no smaller than
   * any other: earlier scores are strictly smaller, later ones no larger. Nothing is
   * picked iff no score is positive.
   */
  lemma {:induction false} ArgMaxSpec(scores: seq<Option<real>>)
    ensures var p := ArgMax(scores);
      && (p.index.None? ==> p.best == 0.0 && forall j :: 0 <= j < |scores| && scores[j].Some? ==> scores[j].value <= 0.0)
      && (p.index.Some? ==>
        var i := p.index.value;
        && scores[i] == Some(p.best)
        && p.best > 0.0
        && (forall j :: 0 <= j < i && scores[j].Some? ==> scores[j].value < p.best)
        && (forall j :: i < j < |scores| && scores[j].Some? ==> scores[j].value <= p.best))
    decreases |scores|
  {
    if scores != [] {
      var init := scores[..|scores| - 1];
      ArgMaxSpec(init);
      assert forall j :: 0 <= j < |init| ==> init[j] == scores[j];
    }
  }

  // ---------------------------------------------------------------- Best opportunity

  /** The score of a contract in the yield loop: its yield when that is computable and at least the minimum. */
  function YieldScore(put: OptionContract, stockPrice: real, today: Date, minYield: real): Option<real> {
    match PremiumYield(put, stockPrice, put.expiration, today)
    case Err(_) => None
    case Ok(y) => if y >= minYield then Some(y) else None
  }

  function YieldScores(puts: seq<OptionContract>, stockPrice: real, today: Date, minYield: real): (s: seq<Option<real>>)
    ensures |s| == |puts|
    ensures forall j :: 0 <= j < |puts| ==> s[j] == YieldScore(puts[j], stockPrice, today, minYield)
  {
    seq(|puts|, j requires 0 <= j < |puts| => YieldScore(puts[j], stockPrice, today, minYield))
  }

  /** The recommendation built from the chosen put. */
  function Recommend(put: OptionContract, premiumYield: real, today: Date, stockPrice: real): OptionRecommendation
    requires stockPrice != 0.0
  {
    var strikePercent := (put.strike / stockPrice - 1.0) * 100.0;
    var direction := if strikePercent < 0.0 then Below else if strikePercent > 0.0 then Above else At;
    OptionRecommendation(put.symbol, put.underlyingSymbol, put.strike, put.expiration, put.optionType,
                         put.bid, put.ask, put.MidPrice(), premiumYield, put.volume, put.openInterest,
                         put.impliedVolatility, put.delta,
                         Rationale(strikePercent, direction, put.expiration - today, premiumYield, put.MidPrice()))
  }

  /** The candidates of the yield loop: the band, sorted, then the expiry filter, then the liquidity filter. */
  function Candidates(chain: OptionChain, s: OptionScreening, today: Date): seq<OptionContract> {
    var u := chain.underlyingPrice;
    FilterByLiquidity(DteFilter(SortByDistance(InBand(chain.puts, u, s.tolerance), u), s.minDte, s.maxDte, today),
                      s.minVolume, s.minOpenInterest)
  }

  /** What `find_best_opportunity` returns. */
  function BestOpportunity(chain: OptionChain, s: OptionScreening, today: Date): Option<OptionRecommendation> {
    var u := chain.underlyingPrice;
    if u <= 0.0 then None
    else
      var cands := Candidates(chain, s, today);
      var p := ArgMax(YieldScores(cands, u, today, s.minPremiumYield));
      match p.index
      case None => None
      case Some(i) => Some(Recommend(cands[i], p.best, today, u))
  }

  /** `find_best_opportunity`: the filter pipeline with its early returns, then the yield loop. */
  method FindBestOpportunity(chain: OptionChain, s: OptionScreening, today: Date) returns (r: Option<OptionRecommendation>)
    ensures r == BestOpportunity(chain, s, today)
  {
    var stockPrice := chain.underlyingPrice;
    if stockPrice <= 0.0 {
      return None;
    }
    var atm := FindAtmPuts(chain, s.tolerance);
    var atmPuts := atm.value;
    if atmPuts == [] {
      return None;
    }
    var dteFiltered := FilterByDte(atmPuts, s.minDte, s.maxDte, today);
    if dteFiltered == [] {
      return None;
    }
    var liquid := FilterByLiquidity(dteFiltered, s.minVolume, s.minOpenInterest);
    if liquid == [] {
      assert ArgMax(YieldScores(liquid, stockPrice, today, s.minPremiumYield)) == Pick(None, 0.0);
      return None;
    }
    ghost var scores := YieldScores(liquid, stockPrice, today, s.minPremiumYield);
    var bestPut: Option<OptionContract> := None;
    var bestYield := 0.0;
    ghost var bestIndex: Option<nat> := None;
    var i := 0;
    while i < |liquid|
      invariant 0 <= i <= |liquid|
      invariant Pick(bestIndex, bestYield) == ArgMax(scores[..i])
      invariant bestIndex.Some? ==> bestIndex.value < i
      invariant bestPut == if bestIndex.Some? then Some(liquid[bestIndex.value]) else None
    {
      var put := liquid[i];
      var y := PremiumYield(put, stockPrice, put.expiration, today);
      if y.Ok? && y.value >= s.minPremiumYield && y.value > bestYield {
        bestYield := y.value;
        bestPut := Some(put);
        bestIndex := Some(i);
      }
      assert scores[..i + 1][..i] == scores[..i];
      i := i + 1;
    }
    assert scores[..i] == scores;
    if bestPut.None? {
      return None;
    }
    return Some(Recommend(bestPut.value, bestYield, today, stockPrice));
  }

  /** A put survives every stage of the pipeline. */
  predicate Survives(c: OptionContract, chain: OptionChain, s: OptionScreening, today: Date) {
    var u := chain.underlyingPrice;
    && c in chain.puts
    && InBandAt(c, u, s.tolerance)
    && InDteRange(c, s.minDte, s.maxDte, today)
    && Liquid(c, s.minVolume, s.minOpenInterest)
  }

  /** The candidates are exactly the puts that survive every stage. */
  lemma {:induction false} CandidatesSpec(chain: OptionChain, s: OptionScreening, today: Date)
    requires chain.underlyingPrice > 0.0
    ensures forall c :: c in Candidates(chain, s, today) <==> Survives(c, chain, s, today)
  {
    var u := chain.underlyingPrice;
    AtmPutsSpec(chain, s.tolerance, 0.0);
    var atm := SortByDistance(InBand(chain.puts, u, s.tolerance), u);
    DteFilterSpec(atm, [], s.minDte, s.maxDte, today);
  }

  /**
   * The recommendation: nothing when the spot is not positive or no surviving put has a
   * computable yield that is positive and at least the minimum; otherwise a surviving
   * put whose yield is positive, meets the minimum, and is at least that of every other
   * surviving put.
   */
  lemma {:induction false} BestOpportunitySpec(chain: OptionChain, s: OptionScreening, today: Date)
    ensures chain.underlyingPrice <= 0.0 ==> BestOpportunity(chain, s, today).None?
    ensures var u := chain.underlyingPrice;
      BestOpportunity(chain, s, today).None? && u > 0.0 ==>
        forall c :: c in chain.puts && Survives(c, chain, s, today) && YieldScore(c, u, today, s.minPremiumYield).Some? ==>
          YieldScore(c, u, today, s.minPremiumYield).value <= 0.0
    ensures var r := BestOpportunity(chain, s, today);
      var u := chain.underlyingPrice;
      r.Some? ==>
        && r.value.premiumYield > 0.0
        && r.value.premiumYield >= s.minPremiumYield
        && (exists c :: c in chain.puts && Survives(c, chain, s, today)
              && PremiumYield(c, u, c.expiration, today) == Ok(r.value.premiumYield)
              && r.value.symbol == c.symbol && r.value.strike == c.strike && r.value.expiration == c.expiration)
        && (forall c :: c in chain.puts && Survives(c, chain, s, today) && YieldScore(c, u, today, s.minPremiumYield).Some? ==>
              YieldScore(c, u, today, s.minPremiumYield).value <= r.value.premiumYield)
  {
    var u := chain.underlyingPrice;
    if u > 0.0 {
      CandidatesSpec(chain, s, today);
      var cands := Candidates(chain, s, today);
      var scores := YieldScores(cands, u, today, s.minPremiumYield);
      ArgMaxSpec(scores);
      var p := ArgMax(scores);
      forall c | c in chain.puts && Survives(c, chain, s, today) && YieldScore(c, u, today, s.minPremiumYield).Some?
        ensures YieldScore(c, u, today, s.minPremiumYield).value <= p.best
      {
        assert c in cands;
        var j :| 0 <= j < |cands| && cands[j] == c;
        assert scores[j] == YieldScore(c, u, today, s.minPremiumYield);
      }
      if p.index.Some? {
        var i := p.index.value;
        assert scores[i] == YieldScore(cands[i], u, today, s.minPremiumYield);
        assert Survives(cands[i], chain, s, today);
      }
    }
  }

  /** Among candidates, the earliest of several equally best yields wins. */
  lemma {:induction false} FirstBestWins(chain: OptionChain, s: OptionScreening, today: Date)
    requires chain.underlyingPrice > 0.0
    ensures var u := chain.underlyingPrice;
      var cands := Candidates(chain, s, today);
      var p := ArgMax(YieldScores(cands, u, today, s.minPremiumYield));
      p.index.Some? ==>
        forall j :: 0 <= j < p.index.value && YieldScore(cands[j], u, today, s.minPremiumYield).Some? ==>
          YieldScore(cands[j], u, today, s.minPremiumYield).value < p.best
  {
    var u := chain.underlyingPrice;
    var cands := Candidates(chain, s, today);
    ArgMaxSpec(YieldScores(cands, u, today, s.minPremiumYield));
  }

  // ---------------------------------------------------------------- Across expirations

  /** The score of a chain in the expirations loop: the yield of its recommendation, if any. */
  function ChainScore(chain: OptionChain, s: OptionScreening, today: Date): Option<real> {
    var rec := BestOpportunity(chain, s, today);
    if rec.Some? then Some(rec.value.premiumYield) else None
  }

  function ChainScores(chains: seq<OptionChain>, s: OptionScreening, today: Date): (scores: seq<Option<real>>)
    ensures |scores| == |chains|
    ensures forall j :: 0 <= j < |chains| ==> scores[j] == ChainScore(chains[j], s, today)
  {
    seq(|chains|, j requires 0 <= j < |chains| => ChainScore(chains[j], s, today))
  }

  /** What `analyze_all_expirations` returns. */
  function BestAcrossExpirations(chains: seq<OptionChain>, s: OptionScreening, today: Date): Option<OptionRecommendation> {
    var p := ArgMax(ChainScores(chains, s, today));
    match p.index
    case None => None
    case Some(i) => BestOpportunity(chains[i], s, today)
  }

  /** `analyze_all_expirations`: keep the recommendation with the strictly greatest yield. */
  method AnalyzeAllExpirations(chains: seq<OptionChain>, s: OptionScreening, today: Date) returns (bestRec: Option<OptionRecommendation>)
    ensures bestRec == BestAcrossExpirations(chains, s, today)
  {
    ghost var scores := ChainScores(chains, s, today);
    bestRec := None;
    var bestYield := 0.0;
    ghost var bestIndex: Option<nat> := None;
    var i := 0;
    while i < |chains|
      invariant 0 <= i <= |chains|
      invariant Pick(bestIndex, bestYield) == ArgMax(scores[..i])
      invariant bestIndex.Some? ==> bestIndex.value < i
      invariant bestRec == if bestIndex.Some? then BestOpportunity(chains[bestIndex.value], s, today) else None
    {
      var rec := FindBestOpportunity(chains[i], s, today);
      assert scores[i] == if rec.Some? then Some(rec.value.premiumYield) else None;
      assert scores[..i + 1][..i] == scores[..i];
      assert ArgMax(scores[..i + 1]) ==
        if scores[i].Some? && scores[i].value > bestYield then Pick(Some(i), scores[i].value) else ArgMax(scores[..i]);
      if rec.Some? && rec.value.premiumYield > bestYield {
        bestYield := rec.value.premiumYield;
        bestRec := rec;
        bestIndex := Some(i);
      }
      i := i + 1;
    }
    assert scores[..i] == scores;
  }

  /**
   * Across chains: nothing iff no chain yields a recommendation; otherwise the
   * recommendation of some chain, with a yield at least that of every chain's, and
   * strictly greater than that of every earlier chain (the first chain wins ties).
   */
  lemma {:induction false} BestAcrossExpirationsSpec(chains: seq<OptionChain>, s: OptionScreening, today: Date)
    ensures BestAcrossExpirations(chains, s, today).None? <==>
      forall j :: 0 <= j < |chains| ==> BestOpportunity(chains[j], s, today).None?
    ensures var r := BestAcrossExpirations(chains, s, today);
      r.Some? ==> exists i :: (0 <= i < |chains|
        && r == BestOpportunity(chains[i], s, today)
        && (forall j :: 0 <= j < i && BestOpportunity(chains[j], s, today).Some? ==>
              BestOpportunity(chains[j], s, today).value.premiumYield < r.value.premiumYield)
        && (forall j :: i < j < |chains| && BestOpportunity(chains[j], s, today).Some? ==>
              BestOpportunity(chains[j], s, today).value.premiumYield <= r.value.premiumYield))
  {
    var scores := ChainScores(chains, s, today);
    ArgMaxSpec(scores);
    forall j | 0 <= j < |chains| ensures BestOpportunity(chains[j], s, today).Some? ==> scores[j].value > 0.0 {
      BestOpportunitySpec(chains[j], s, today);
    }
  }
}
