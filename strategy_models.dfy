/**
 * Strategy value types: conditions, stock criteria, option-screening parameters, the
 * validated strategy, evaluation results and option recommendations.
 */
module StrategyModels {
  import opened Wrappers
  import opened PyData
  import MarketData

  /**
   * One entry condition. `kind` is the condition's type (trend, oversold, bounce, price,
   * volume, ...); `parameters` is whatever the strategy document held (normally a dict).
   */
  datatype Condition = Condition(
    kind: string,
    rule: string,
    parameters: Value,
    description: Value,
    weight: real)

  /** A condition built from its type and rule only: empty parameters, empty description, weight 1.0. */
  function DefaultCondition(kind: string, rule: string): (c: Condition)
    ensures c.kind == kind && c.rule == rule
    ensures c.parameters == VDict(map[]) && c.description == VStr("") && c.weight == 1.0
  {
    Condition(kind, rule, VDict(map[]), VStr(""), 1.0)
  }

  /** Stock-filter criteria; the fields are carried as loaded and read by nothing in the core. */
  datatype StockCriteria = StockCriteria(
    minRevenue: Value,
    minMarketCap: Value,
    maxMarketCap: Value,
    minPrice: Value,
    maxPrice: Value,
    exchanges: Value,
    sectors: Value,
    excludeSectors: Value)

  const DefaultStockCriteria: StockCriteria :=
    StockCriteria(VNone, VNone, VNone, VNone, VNone, VList([]), VList([]), VList([]))

  /** Option-screening parameters. */
  datatype OptionScreening = OptionScreening(
    minPremiumYield: real,
    targetDte: int,
    minDte: int,
    maxDte: int,
    tolerance: real,
    minVolume: int,
    minOpenInterest: int)

  const DefaultMinPremiumYield: real := 0.02
  const DefaultTargetDte: int := 30
  const DefaultMinDte: int := 7
  const DefaultMaxDte: int := 60
  const DefaultTolerance: real := 0.05
  const DefaultMinVolume: int := 100
  const DefaultMinOpenInterest: int := 500

  const DefaultOptionScreening: OptionScreening :=
    OptionScreening(DefaultMinPremiumYield, DefaultTargetDte, DefaultMinDte, DefaultMaxDte,
                    DefaultTolerance, DefaultMinVolume, DefaultMinOpenInterest)

  /** The screening defaults: 2% yield, 30 target days, 7 to 60 days, 5% band, 100 volume, 500 open interest. */
  lemma {:induction false} DefaultOptionScreeningValues()
    ensures DefaultOptionScreening.minPremiumYield == 0.02 && DefaultOptionScreening.targetDte == 30
    ensures DefaultOptionScreening.minDte == 7 && DefaultOptionScreening.maxDte == 60
    ensures DefaultOptionScreening.tolerance == 0.05
    ensures DefaultOptionScreening.minVolume == 100 && DefaultOptionScreening.minOpenInterest == 500
    ensures DefaultOptionScreening.minDte <= DefaultOptionScreening.targetDte <= DefaultOptionScreening.maxDte
  {
  }

  /** A validated strategy. Name, version, description and tags are carried as loaded. */
  datatype Strategy = Strategy(
    name: Value,
    version: Value,
    description: Value,
    stockCriteria: StockCriteria,
    entryConditions: seq<Condition>,
    optionScreening: OptionScreening,
    tags: Value)

  const EmptyNameMessage: string := "Strategy name cannot be empty"
  const EmptyVersionMessage: string := "Strategy version cannot be empty"
  const NoConditionsMessage: string := "Strategy must have at least one entry condition"

  /**
   * Strategy construction with the `__post_init__` validation: a falsy name, then a falsy
   * version, then an empty condition list raise ValueError, the first failing check winning.
   */
  function NewStrategy(
    name: Value, version: Value, description: Value, stockCriteria: StockCriteria,
    entryConditions: seq<Condition>, optionScreening: OptionScreening, tags: Value): (r: Result<Strategy, string>)
    ensures r.Ok? <==> Truthy(name) && Truthy(version) && entryConditions != []
    ensures r.Ok? ==> r.value == Strategy(name, version, description, stockCriteria, entryConditions, optionScreening, tags)
    ensures !Truthy(name) ==> r == Err(EmptyNameMessage)
    ensures Truthy(name) && !Truthy(version) ==> r == Err(EmptyVersionMessage)
    ensures Truthy(name) && Truthy(version) && entryConditions == [] ==> r == Err(NoConditionsMessage)
  {
    if !Truthy(name) then Err(EmptyNameMessage)
    else if !Truthy(version) then Err(EmptyVersionMessage)
    else if entryConditions == [] then Err(NoConditionsMessage)
    else Ok(Strategy(name, version, description, stockCriteria, entryConditions, optionScreening, tags))
  }

  /** What a strategy the model can hold satisfies: the validation passed. */
  predicate ValidStrategy(s: Strategy) {
    Truthy(s.name) && Truthy(s.version) && s.entryConditions != []
  }

  lemma {:induction false} NewStrategyValid(
    name: Value, version: Value, description: Value, stockCriteria: StockCriteria,
    entryConditions: seq<Condition>, optionScreening: OptionScreening, tags: Value)
    ensures var r := NewStrategy(name, version, description, stockCriteria, entryConditions, optionScreening, tags);
      r.Ok? ==> ValidStrategy(r.value)
  {
  }

  /** The diagnostic a condition leaves in `details`, keyed by its type. */
  datatype Detail =
    | Met(value: Value, rule: string)
    | Missed(value: Value, rule: string, reason: Option<Reason>)
    | Errored(error: string)

  /** Why a condition was not met; the source renders these as messages. */
  datatype Reason =
    | SmaNotAbove(sma20: real, sma60: real)
    | NotBullish
    | RsiNotBelow(rsi: real, threshold: Value)
    | RsiNotAvailable
    | InsufficientRsiHistory
    | RsiNeverBelow(threshold: Value)
    | NotOversold(maybeRsi: Option<real>, threshold: Value)
    | InsufficientBounceData
    | BounceNotDetected(withVolume: bool)
    | PriceBelowMinimum(price: real, minimum: Value)
    | PriceAboveMaximum(price: real, maximum: Value)
    | VolumeBelowMinimum(volume: int, minimum: Value)
    | NoVolumeSpike(threshold: Value)
    | VolumeCheckFailed(error: string)
    | UnknownRule(kind: string, rule: string)
    | UnknownType(kind: string)

  datatype EvaluationResult = EvaluationResult(
    symbol: string,
    strategyName: Value,
    matches: bool,
    conditionsMet: seq<string>,
    conditionsMissed: seq<string>,
    signalStrength: real,
    details: map<string, Detail>)

  /** Direction of the strike relative to spot in a recommendation's rationale. */
  datatype Direction = Below | Above | At

  /** The facts a recommendation's human-readable reason reports. */
  datatype Rationale = Rationale(strikePercent: real, direction: Direction, daysToExpiration: int,
                                 annualizedYield: real, midPrice: real)

  datatype OptionRecommendation = OptionRecommendation(
    symbol: string,
    underlyingSymbol: string,
    strike: real,
    expiration: MarketData.Date,
    optionType: MarketData.OptionType,
    bid: real,
    ask: real,
    midPrice: real,
    premiumYield: real,
    volume: int,
    openInterest: int,
    impliedVolatility: Option<real>,
    delta: Option<real>,
    reason: Rationale)
}
