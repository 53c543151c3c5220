/**
 * The per-symbol screening pipeline and the batch statistics. The data provider is a set
 * of functions given as parameters; an exception it raises is an `Err` carrying `str(e)`.
 */
module Screener {
  import opened Wrappers
  import opened Seqs
  import opened Text
  import opened PyData
  import opened MarketData
  import opened StrategyModels
  import opened Patterns
  import opened Evaluator
  import opened RuleEvaluation
  import opened OptionAnalyzer

  /** The data provider: each call returns its value, or the message of the exception it raised. */
  datatype Provider = Provider(
    getQuote: string -> Result<Option<Quote>, string>,
    getHistoricalPrices: (string, Date, Date) -> Result<seq<OHLCV>, string>,
    getAvailableExpirations: string -> Result<seq<Date>, string>,
    getOptionChain: (string, Date) -> Result<Option<OptionChain>, string>)

  datatype StockScreener = StockScreener(
    provider: Provider,
    strategy: Strategy,
    maxConcurrent: int,
    historicalDays: int,
    indicatorCalc: Calculator)

  const DefaultMaxConcurrent: int := 5
  const DefaultHistoricalDays: int := 252
  const MinHistoryBars: nat := 60
  const MaxChains: nat := 3
  const FailedQuoteMessage: string := "Failed to fetch quote"

  function NewStockScreener(provider: Provider, strategy: Strategy, indicatorCalc: Calculator): (sc: StockScreener)
    ensures sc.maxConcurrent == 5 && sc.historicalDays == 252
    ensures sc.provider == provider && sc.strategy == strategy
  {
    StockScreener(provider, strategy, DefaultMaxConcurrent, DefaultHistoricalDays, indicatorCalc)
  }

  /** The evaluator the screener builds for its strategy, with a default pattern detector. */
  function EvaluatorOf(sc: StockScreener): RuleEvaluator {
    RuleEvaluator(sc.strategy, sc.indicatorCalc, DefaultDetector)
  }

  datatype ScreeningResult = ScreeningResult(
    symbol: string,
    timestamp: string,
    matches: bool,
    signalStrength: real,
    conditionsMet: seq<string>,
    conditionsMissed: seq<string>,
    quote: Option<Quote>,
    indicators: Option<TechnicalIndicators>,
    optionRecommendation: Option<OptionRecommendation>,
    evaluationDetails: map<string, Detail>,
    error: Option<string>)

  /** The types of the strategy's entry conditions, in order. */
  function ConditionTypes(strategy: Strategy): (ks: seq<string>)
    ensures |ks| == |strategy.entryConditions|
    ensures forall j :: 0 <= j < |ks| ==> ks[j] == strategy.entryConditions[j].kind
  {
    seq(|strategy.entryConditions|, j requires 0 <= j < |strategy.entryConditions| => strategy.entryConditions[j].kind)
  }

  /** The shape of every terminal result: no match, every condition missed, and an error. */
  function Failure(symbol: string, timestamp: string, strategy: Strategy, quote: Option<Quote>, error: string): ScreeningResult {
    ScreeningResult(symbol, timestamp, false, 0.0, [], ConditionTypes(strategy), quote, None, None, map[], Some(error))
  }

  function ScreeningErrorMessage(e: string): string {
    "Screening error: " + e
  }

  function InsufficientHistoryMessage(n: nat): string {
    "Insufficient historical data: " + NatToString(n) + " points"
  }

  // ---------------------------------------------------------------- Option stage

  predicate InExpiryWindow(e: Date, minDte: int, maxDte: int, today: Date) {
    minDte <= e - today <= maxDte
  }

  function ExpiryTest(minDte: int, maxDte: int, today: Date): Date -> bool {
    (e: Date) => InExpiryWindow(e, minDte, maxDte, today)
  }

  /** The expirations whose days to expiry lie in the strategy's range, in provider order. */
  function TargetExpirations(exps: seq<Date>, s: OptionScreening, today: Date): seq<Date> {
    Filter(exps, ExpiryTest(s.minDte, s.maxDte, today))
  }

  /** Python's `xs[:n]`. */
  function Take<T>(xs: seq<T>, n: nat): (r: seq<T>)
    ensures |r| <= n && |r| <= |xs|
  {
    if |xs| <= n then xs else xs[..n]
  }

  /** The chains fetched for `exps`, in order; an expiration whose fetch raises or gives nothing is skipped. */
  function ChainsFor(p: Provider, symbol: string, exps: seq<Date>): (cs: seq<OptionChain>)
    ensures |cs| <= |exps|
    decreases |exps|
  {
    if exps == [] then []
    else
      var prev := ChainsFor(p, symbol, exps[..|exps| - 1]);
      match p.getOptionChain(symbol, exps[|exps| - 1])
      case Ok(Some(c)) => prev + [c]
      case _ => prev
  }

  /** The option stage of `screen_symbol`: expirations, the expiry window, at most three chains, the best put. */
  function OptionStage(sc: StockScreener, symbol: string, today: Date): Option<OptionRecommendation> {
    var s := sc.strategy.optionScreening;
    match sc.provider.getAvailableExpirations(symbol)
    case Err(_) => None
    case Ok(exps) =>
      var targets := TargetExpirations(exps, s, today);
      if targets == [] then None
      else
        var chains := ChainsFor(sc.provider, symbol, Take(targets, MaxChains));
        if chains == [] then None else BestAcrossExpirations(chains, s, today)
  }

  /** The loop that fetches the chains. */
  method FetchChains(p: Provider, symbol: string, exps: seq<Date>) returns (chains: seq<OptionChain>)
    ensures chains == ChainsFor(p, symbol, exps)
  {
    chains := [];
    var i := 0;
    while i < |exps|
      invariant 0 <= i <= |exps|
      invariant chains == ChainsFor(p, symbol, exps[..i])
    {
      var fetched := p.getOptionChain(symbol, exps[i]);
      if fetched.Ok? && fetched.value.Some? {
        chains := chains + [fetched.value.value];
      }
      assert exps[..i + 1][..i] == exps[..i];
      i := i + 1;
    }
    assert exps[..i] == exps;
  }

  /** Every fetched chain comes from one of the given expirations, and every successful fetch is kept. */
  lemma {:induction false} ChainsForSpec(p: Provider, symbol: string, exps: seq<Date>)
    ensures forall c :: c in ChainsFor(p, symbol, exps) ==> exists e :: e in exps && p.getOptionChain(symbol, e) == Ok(Some(c))
    ensures forall e :: e in exps && p.getOptionChain(symbol, e).Ok? && p.getOptionChain(symbol, e).value.Some? ==>
      p.getOptionChain(symbol, e).value.value in ChainsFor(p, symbol, exps)
    decreases |exps|
  {
    if exps != [] {
      var init := exps[..|exps| - 1];
      var last := exps[|exps| - 1];
      ChainsForSpec(p, symbol, init);
      assert exps == init + [last];
      assert forall e :: e in exps <==> e in init || e == last;
      var prev := ChainsFor(p, symbol, init);
      assert ChainsFor(p, symbol, exps) == prev + (if p.getOptionChain(symbol, last).Ok? && p.getOptionChain(symbol, last).value.Some?
                                                  then [p.getOptionChain(symbol, last).value.value] else []);
    }
  }

  // ---------------------------------------------------------------- screen_symbol

  /** What `screen_symbol` returns; `now` is the clock reading taken at its start. */
  function ScreenResult(sc: StockScreener, symbol: string, today: Date, now: string): ScreeningResult {
    match sc.provider.getQuote(symbol)
    case Err(e) => Failure(symbol, now, sc.strategy, None, ScreeningErrorMessage(e))
    case Ok(None) => Failure(symbol, now, sc.strategy, None, FailedQuoteMessage)
    case Ok(Some(quote)) =>
      match sc.provider.getHistoricalPrices(symbol, today - sc.historicalDays, today)
      case Err(e) => Failure(symbol, now, sc.strategy, None, ScreeningErrorMessage(e))
      case Ok(historical) =>
        if |historical| < MinHistoryBars then
          Failure(symbol, now, sc.strategy, Some(quote), InsufficientHistoryMessage(|historical|))
        else
          match sc.indicatorCalc(historical, symbol)
          case Err(e) => Failure(symbol, now, sc.strategy, None, ScreeningErrorMessage(e))
          case Ok(indicators) =>
            var evaluation := Evaluation(EvaluatorOf(sc), symbol, MarketInputs(quote, historical, indicators));
            var rec := if evaluation.matches then OptionStage(sc, symbol, today) else None;
            ScreeningResult(symbol, now, evaluation.matches, evaluation.signalStrength, evaluation.conditionsMet,
                            evaluation.conditionsMissed, Some(quote), Some(indicators), rec, evaluation.details, None)
  }

  /** `screen_symbol`: the pipeline step by step, with its early returns. */
  method ScreenSymbol(sc: StockScreener, symbol: string, today: Date, now: string) returns (r: ScreeningResult)
    ensures r == ScreenResult(sc, symbol, today, now)
  {
    var quoteResult := sc.provider.getQuote(symbol);
    if quoteResult.Err? {
      return Failure(symbol, now, sc.strategy, None, ScreeningErrorMessage(quoteResult.error));
    }
    if quoteResult.value.None? {
      return Failure(symbol, now, sc.strategy, None, FailedQuoteMessage);
    }
    var quote := quoteResult.value.value;
    var historicalResult := sc.provider.getHistoricalPrices(symbol, today - sc.historicalDays, today);
    if historicalResult.Err? {
      return Failure(symbol, now, sc.strategy, None, ScreeningErrorMessage(historicalResult.error));
    }
    var historical := historicalResult.value;
    if |historical| < MinHistoryBars {
      return Failure(symbol, now, sc.strategy, Some(quote), InsufficientHistoryMessage(|historical|));
    }
    var indicatorsResult := sc.indicatorCalc(historical, symbol);
    if indicatorsResult.Err? {
      return Failure(symbol, now, sc.strategy, None, ScreeningErrorMessage(indicatorsResult.error));
    }
    var indicators := indicatorsResult.value;
    var evaluation := Evaluate(EvaluatorOf(sc), symbol, MarketInputs(quote, historical, indicators));
    var rec: Option<OptionRecommendation> := None;
    if evaluation.matches {
      var s := sc.strategy.optionScreening;
      var expirations := sc.provider.getAvailableExpirations(symbol);
      if expirations.Ok? {
        var targets := TargetExpirations(expirations.value, s, today);
        if targets != [] {
          var chains := FetchChains(sc.provider, symbol, Take(targets, MaxChains));
          if chains != [] {
            rec := AnalyzeAllExpirations(chains, s, today);
          }
        }
      }
    }
    r := ScreeningResult(symbol, now, evaluation.matches, evaluation.signalStrength, evaluation.conditionsMet,
                         evaluation.conditionsMissed, Some(quote), Some(indicators), rec, evaluation.details, None);
  }

  /**
   * Every result: an error means no match, zero strength, nothing met, every condition
   * type missed in strategy order, and no indicators or recommendation; a match means
   * no error; a recommendation is only ever looked for after a match.
   */
  lemma {:induction false} ScreenResultShape(sc: StockScreener, symbol: string, today: Date, now: string)
    ensures var r := ScreenResult(sc, symbol, today, now);
      && r.symbol == symbol && r.timestamp == now
      && (r.error.Some? ==>
            && !r.matches && r.signalStrength == 0.0 && r.conditionsMet == []
            && r.conditionsMissed == ConditionTypes(sc.strategy)
            && r.indicators.None? && r.optionRecommendation.None? && r.evaluationDetails == map[])
      && (r.matches ==> r.error.None?)
      && (r.optionRecommendation.Some? ==> r.matches)
  {
  }

  /** A missing quote, a provider exception, and short history are terminal, each with its own message. */
  lemma {:induction false} ScreenResultFailures(sc: StockScreener, symbol: string, today: Date, now: string)
    ensures sc.provider.getQuote(symbol) == Ok(None) ==>
      ScreenResult(sc, symbol, today, now) == Failure(symbol, now, sc.strategy, None, "Failed to fetch quote")
    ensures sc.provider.getQuote(symbol).Err? ==>
      ScreenResult(sc, symbol, today, now).error == Some("Screening error: " + sc.provider.getQuote(symbol).error)
    ensures var h := sc.provider.getHistoricalPrices(symbol, today - sc.historicalDays, today);
      sc.provider.getQuote(symbol).Ok? && sc.provider.getQuote(symbol).value.Some? && h.Ok? && |h.value| < 60 ==>
        ScreenResult(sc, symbol, today, now) ==
          Failure(symbol, now, sc.strategy, sc.provider.getQuote(symbol).value,
                  "Insufficient historical data: " + NatToString(|h.value|) + " points")
  {
  }

  /**
   * Without an error the result is the evaluation's outcome: there was a quote, at least
   * 60 bars and indicators, and match, strength, both lists and details are the
   * evaluator's. A failing option stage leaves the recommendation empty but still no error.
   */
  lemma {:induction false} ScreenResultSuccess(sc: StockScreener, symbol: string, today: Date, now: string)
    ensures var r := ScreenResult(sc, symbol, today, now);
      var q := sc.provider.getQuote(symbol);
      var h := sc.provider.getHistoricalPrices(symbol, today - sc.historicalDays, today);
      r.error.None? <==>
        q.Ok? && q.value.Some? && h.Ok? && |h.value| >= 60 && sc.indicatorCalc(h.value, symbol).Ok?
    ensures var r := ScreenResult(sc, symbol, today, now);
      var q := sc.provider.getQuote(symbol);
      var h := sc.provider.getHistoricalPrices(symbol, today - sc.historicalDays, today);
      r.error.None? ==>
        var ev := Evaluation(EvaluatorOf(sc), symbol, MarketInputs(q.value.value, h.value, sc.indicatorCalc(h.value, symbol).value));
        && r.matches == ev.matches && r.signalStrength == ev.signalStrength
        && r.conditionsMet == ev.conditionsMet && r.conditionsMissed == ev.conditionsMissed
        && r.evaluationDetails == ev.details && r.quote == q.value
        && r.optionRecommendation == (if ev.matches then OptionStage(sc, symbol, today) else None)
    ensures var r := ScreenResult(sc, symbol, today, now);
      r.error.None? && sc.provider.getAvailableExpirations(symbol).Err? ==> r.optionRecommendation.None?
  {
  }

  /**
   * `c` is the chain fetched for `e`, one of the first three expirations in the
   * days-to-expiry window among those the provider listed.
   */
  predicate FetchedFrom(sc: StockScreener, symbol: string, today: Date, e: Date, c: OptionChain) {
    var s := sc.strategy.optionScreening;
    var exps := sc.provider.getAvailableExpirations(symbol);
    && exps.Ok?
    && e in Take(TargetExpirations(exps.value, s, today), MaxChains)
    && e in exps.value
    && InExpiryWindow(e, s.minDte, s.maxDte, today)
    && sc.provider.getOptionChain(symbol, e) == Ok(Some(c))
  }

  /** The best put across the fetched chains is the best put of a chain fetched for one of `exps`. */
  lemma {:induction false} BestOfFetched(p: Provider, symbol: string, exps: seq<Date>, s: OptionScreening, today: Date)
    ensures var rec := BestAcrossExpirations(ChainsFor(p, symbol, exps), s, today);
      rec.Some? ==> exists e, c :: e in exps && p.getOptionChain(symbol, e) == Ok(Some(c)) && rec == BestOpportunity(c, s, today)
  {
    var chains := ChainsFor(p, symbol, exps);
    var rec := BestAcrossExpirations(chains, s, today);
    if rec.Some? {
      BestAcrossExpirationsSpec(chains, s, today);
      var i :| 0 <= i < |chains| && rec == BestOpportunity(chains[i], s, today);
      ChainsForSpec(p, symbol, exps);
      assert chains[i] in chains;
      var e :| e in exps && p.getOptionChain(symbol, e) == Ok(Some(chains[i]));
    }
  }

  /** A recommendation is the best put of a chain fetched for an expiration in the window. */
  lemma {:induction false} OptionStageSpec(sc: StockScreener, symbol: string, today: Date)
    ensures var rec := OptionStage(sc, symbol, today);
      rec.Some? ==> exists e, c :: FetchedFrom(sc, symbol, today, e, c) && rec == BestOpportunity(c, sc.strategy.optionScreening, today)
  {
    var s := sc.strategy.optionScreening;
    var rec := OptionStage(sc, symbol, today);
    if rec.Some? {
      var exps := sc.provider.getAvailableExpirations(symbol).value;
      var targets := TargetExpirations(exps, s, today);
      var taken := Take(targets, MaxChains);
      assert rec == BestAcrossExpirations(ChainsFor(sc.provider, symbol, taken), s, today);
      BestOfFetched(sc.provider, symbol, taken, s, today);
      var e, c :| e in taken && sc.provider.getOptionChain(symbol, e) == Ok(Some(c)) && rec == BestOpportunity(c, s, today);
      assert e in targets;
      FilterMembers(exps, ExpiryTest(s.minDte, s.maxDte, today));
      assert FetchedFrom(sc, symbol, today, e, c);
    }
  }

  // ---------------------------------------------------------------- Batches and statistics

  datatype ScreeningStats = ScreeningStats(
    totalSymbols: nat,
    successful: nat,
    failed: nat,
    matches: nat,
    startTime: string,
    endTime: string,
    durationSeconds: real)
  {
    /** `success_rate`: the successful share as a percentage, 0 for an empty run. */
    function SuccessRate(): real {
      if totalSymbols == 0 then 0.0 else (successful as real / totalSymbols as real) * 100.0
    }
  }

  /** The success rate is a percentage, 100 exactly when every symbol succeeded. */
  lemma {:induction false} SuccessRateBounds(st: ScreeningStats)
    requires st.successful <= st.totalSymbols
    ensures 0.0 <= st.SuccessRate() <= 100.0
    ensures st.totalSymbols == 0 ==> st.SuccessRate() == 0.0
    ensures st.totalSymbols > 0 ==> (st.SuccessRate() == 100.0 <==> st.successful == st.totalSymbols)
    ensures st.totalSymbols > 0 ==> st.SuccessRate() * (st.totalSymbols as real) == (st.successful as real) * 100.0
  {
    if st.totalSymbols > 0 {
      var t := st.totalSymbols as real;
      var k := st.successful as real;
      assert st.SuccessRate() == (k / t) * 100.0;
      assert k / t <= 1.0;
      assert (k / t) * t == k;
      if st.SuccessRate() == 100.0 {
        assert k / t == 1.0;
        assert k == (k / t) * t;
        assert k == t;
      }
      if k == t {
        assert k / t == 1.0;
      }
    }
  }

  /** The batch: one result per symbol. Concurrency and completion order are not modelled. */
  method ScreenBatch(sc: StockScreener, symbols: seq<string>, today: Date, now: string) returns (results: seq<ScreeningResult>)
    ensures |results| == |symbols|
    ensures forall j :: 0 <= j < |symbols| ==> results[j] == ScreenResult(sc, symbols[j], today, now)
  {
    results := [];
    var i := 0;
    while i < |symbols|
      invariant 0 <= i <= |symbols|
      invariant |results| == i
      invariant forall j :: 0 <= j < i ==> results[j] == ScreenResult(sc, symbols[j], today, now)
    {
      var r := ScreenSymbol(sc, symbols[i], today, now);
      results := results + [r];
      i := i + 1;
    }
  }

  /** The results of a batch, one per symbol in input order. */
  function BatchResults(sc: StockScreener, symbols: seq<string>, today: Date, now: string): (rs: seq<ScreeningResult>)
    ensures |rs| == |symbols|
    ensures forall j :: 0 <= j < |symbols| ==> rs[j] == ScreenResult(sc, symbols[j], today, now)
  {
    seq(|symbols|, j requires 0 <= j < |symbols| => ScreenResult(sc, symbols[j], today, now))
  }

  function IsMatch(): ScreeningResult -> bool {
    (r: ScreeningResult) => r.matches
  }

  function HasError(): ScreeningResult -> bool {
    (r: ScreeningResult) => r.error.Some?
  }

  function NoError(): ScreeningResult -> bool {
    (r: ScreeningResult) => r.error.None?
  }

  /** The matching results, in order, and the counts of `screen_and_filter`. */
  function Summarize(symbols: seq<string>, results: seq<ScreeningResult>, start: string, end: string, duration: real)
    : (seq<ScreeningResult>, ScreeningStats)
  {
    (Filter(results, IsMatch()),
     ScreeningStats(|symbols|, |Filter(results, NoError())|, |Filter(results, HasError())|,
                    |Filter(results, IsMatch())|, start, end, duration))
  }

  /** `screen_and_filter`: screen the batch, keep the matches, count them. The clock readings are parameters. */
  method ScreenAndFilter(sc: StockScreener, symbols: seq<string>, today: Date, now: string, start: string, end: string, duration: real)
    returns (matches: seq<ScreeningResult>, stats: ScreeningStats)
    ensures (matches, stats) == Summarize(symbols, BatchResults(sc, symbols, today, now), start, end, duration)
  {
    var results := ScreenBatch(sc, symbols, today, now);
    assert results == BatchResults(sc, symbols, today, now);
    matches := Filter(results, IsMatch());
    stats := ScreeningStats(|symbols|, |Filter(results, NoError())|, |Filter(results, HasError())|,
                            |matches|, start, end, duration);
  }

  /**
   * The statistics of a batch with one result per symbol: successful and failed add up
   * to the number of symbols, the matches are exactly the matching results and never
   * outnumber the successes, and no count depends on the order the results arrived in.
   */
  lemma {:induction false} SummarizeSpec(sc: StockScreener, symbols: seq<string>, results: seq<ScreeningResult>,
                                         reordered: seq<ScreeningResult>, today: Date, now: string,
                                         start: string, end: string, duration: real)
    requires |results| == |symbols|
    requires forall j :: 0 <= j < |symbols| ==> results[j] == ScreenResult(sc, symbols[j], today, now)
    requires multiset(reordered) == multiset(results)
    ensures var (matches, stats) := Summarize(symbols, results, start, end, duration);
      && stats.totalSymbols == |symbols|
      && stats.successful + stats.failed == stats.totalSymbols
      && stats.matches == |matches| <= stats.successful
      && (forall r :: r in matches <==> r in results && r.matches)
      && 0.0 <= stats.SuccessRate() <= 100.0
      && Summarize(symbols, reordered, start, end, duration).1 == stats
  {
    var (matches, stats) := Summarize(symbols, results, start, end, duration);
    FilterComplement(results, NoError(), HasError());
    forall j | 0 <= j < |results| && IsMatch()(results[j]) ensures NoError()(results[j]) {
      ScreenResultShape(sc, symbols[j], today, now);
    }
    FilterLengthMonotone(results, IsMatch(), NoError());
    FilterMembers(results, IsMatch());
    SuccessRateBounds(stats);
    FilterLengthPermutation(results, reordered, NoError());
    FilterLengthPermutation(results, reordered, HasError());
    FilterLengthPermutation(results, reordered, IsMatch());
  }
}
