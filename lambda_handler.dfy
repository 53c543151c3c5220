/**
 * The serverless entry point: where the strategy file is looked for, how a screening
 * result becomes a JSON-ready dictionary, and which status code an invocation answers
 * with. The file system, the configuration loader, the strategy loader, the screening
 * run, the clock and float rounding are parameters (`Runtime`).
 */
module LambdaHandler {
  import opened Wrappers
  import opened Text
  import opened PyData
  import opened MarketData
  import opened StrategyModels
  import opened Screener

  const DefaultStrategyPath: string := "/opt/strategies/ofi.yaml"
  const LocalStrategyPath: string := "strategies/ofi.yaml"
  const DeployedStrategiesDir: string := "/opt/strategies"
  const LocalStrategiesDir: string := "strategies"

  // ---------------------------------------------------------------- Strategy path

  /** `get_strategy_path`, with `fileExists` standing for `Path(p).exists()`. */
  function GetStrategyPath(eventStrategy: Option<string>, fileExists: string -> bool): string {
    if eventStrategy.None? || eventStrategy.value == "" then
      (if fileExists(DefaultStrategyPath) then DefaultStrategyPath else LocalStrategyPath)
    else
      var s := eventStrategy.value;
      if '.' in s && fileExists(s) then s
      else if '.' in s && fileExists(DeployedStrategiesDir + "/" + s) then DeployedStrategiesDir + "/" + s
      else if fileExists(DeployedStrategiesDir + "/" + s + ".yaml") then DeployedStrategiesDir + "/" + s + ".yaml"
      else if fileExists(LocalStrategiesDir + "/" + s + ".yaml") then LocalStrategiesDir + "/" + s + ".yaml"
      else DefaultStrategyPath
  }

  /** The places a named strategy is looked for, in order. */
  function Candidates(s: string): seq<string> {
    (if '.' in s then [s, DeployedStrategiesDir + "/" + s] else [])
      + [DeployedStrategiesDir + "/" + s + ".yaml", LocalStrategiesDir + "/" + s + ".yaml"]
  }

  /** The first candidate that exists, or the fallback. */
  function FirstExisting(candidates: seq<string>, fileExists: string -> bool, fallback: string): string {
    if candidates == [] then fallback
    else if fileExists(candidates[0]) then candidates[0]
    else FirstExisting(candidates[1..], fileExists, fallback)
  }

  /** The first existing candidate wins; with none, the fallback. */
  lemma {:induction false} FirstExistingSpec(candidates: seq<string>, fileExists: string -> bool, fallback: string)
    ensures (forall c :: c in candidates ==> !fileExists(c)) ==> FirstExisting(candidates, fileExists, fallback) == fallback
    ensures forall i :: 0 <= i < |candidates| && fileExists(candidates[i]) && (forall j :: 0 <= j < i ==> !fileExists(candidates[j]))
                    ==> FirstExisting(candidates, fileExists, fallback) == candidates[i]
    decreases |candidates|
  {
    if candidates != [] {
      FirstExistingSpec(candidates[1..], fileExists, fallback);
      if forall c :: c in candidates ==> !fileExists(c) {
        assert forall c :: c in candidates[1..] ==> c in candidates;
      }
      forall i | 0 <= i < |candidates| && fileExists(candidates[i]) && (forall j :: 0 <= j < i ==> !fileExists(candidates[j]))
        ensures FirstExisting(candidates, fileExists, fallback) == candidates[i]
      {
        if i > 0 {
          assert !fileExists(candidates[0]);
          assert candidates[1..][i - 1] == candidates[i];
          forall j | 0 <= j < i - 1 ensures !fileExists(candidates[1..][j]) {
            assert candidates[1..][j] == candidates[j + 1];
          }
        }
      }
    }
  }

  /**
   * Without a strategy the deployed default is used when it exists and the local one
   * otherwise; with one, the first existing place of `Candidates` in order, and the
   * deployed default when none exists.
   */
  lemma {:induction false} GetStrategyPathSpec(eventStrategy: Option<string>, fileExists: string -> bool)
    ensures eventStrategy.None? || eventStrategy.value == "" ==>
      GetStrategyPath(eventStrategy, fileExists) == (if fileExists(DefaultStrategyPath) then DefaultStrategyPath else LocalStrategyPath)
    ensures eventStrategy.Some? && eventStrategy.value != "" ==>
      GetStrategyPath(eventStrategy, fileExists) == FirstExisting(Candidates(eventStrategy.value), fileExists, DefaultStrategyPath)
  {
    if eventStrategy.Some? && eventStrategy.value != "" {
      var s := eventStrategy.value;
      var tail := [DeployedStrategiesDir + "/" + s + ".yaml", LocalStrategiesDir + "/" + s + ".yaml"];
      assert tail[1..] == [LocalStrategiesDir + "/" + s + ".yaml"];
      assert tail[1..][1..] == [];
      if '.' in s {
        var c := Candidates(s);
        assert c[1..] == [DeployedStrategiesDir + "/" + s] + tail;
        assert c[1..][1..] == tail;
      }
      var rest := FirstExisting(tail, fileExists, DefaultStrategyPath);
      assert FirstExisting(tail[1..], fileExists, DefaultStrategyPath)
          == (if fileExists(tail[1]) then tail[1] else DefaultStrategyPath);
      if '.' !in s {
        assert Candidates(s) == tail;
      }
    }
  }

  /** The path handed to the loader either exists or is one of the two defaults. */
  lemma {:induction false} GetStrategyPathExists(eventStrategy: Option<string>, fileExists: string -> bool)
    ensures var p := GetStrategyPath(eventStrategy, fileExists);
      fileExists(p) || p == DefaultStrategyPath || p == LocalStrategyPath
  {
  }

  // ---------------------------------------------------------------- Serialization

  /** `float(x) if x else None`: a zero becomes null. */
  function NumberOrNull(x: real): Value {
    if x != 0.0 then VFloat(x) else VNone
  }

  /** The same for an optional number: a missing value or a zero becomes null. */
  function OptNumberOrNull(x: Option<real>): Value {
    if x.Some? then NumberOrNull(x.value) else VNone
  }

  /** `int(n) if n else None`. */
  function IntOrNull(n: int): Value {
    if n != 0 then VInt(n) else VNone
  }

  function StrList(xs: seq<string>): Value {
    VList(seq(|xs|, i requires 0 <= i < |xs| => VStr(xs[i])))
  }

  function OptStr(x: Option<string>): Value {
    if x.Some? then VStr(x.value) else VNone
  }

  /** How a reader of the JSON gets a number back: null reads as 0. */
  function ReadNumber(v: Value): real {
    if v.VFloat? then v.f else if v.VInt? then v.i as real else 0.0
  }

  /** How a reader of the JSON gets a list of strings back. */
  function ReadStrings(items: seq<Value>): Option<seq<string>>
    decreases |items|
  {
    if items == [] then Some([])
    else if !items[|items| - 1].VStr? then None
    else match ReadStrings(items[..|items| - 1])
      case None => None
      case Some(init) => Some(init + [items[|items| - 1].s])
  }

  /** A zero and only a zero (or a missing value) becomes null, and every number reads back. */
  lemma {:induction false} NullableNumbers(x: real, o: Option<real>, n: int)
    ensures NumberOrNull(x) == VNone <==> x == 0.0
    ensures ReadNumber(NumberOrNull(x)) == x
    ensures OptNumberOrNull(o) == VNone <==> o.None? || o.value == 0.0
    ensures o.Some? ==> ReadNumber(OptNumberOrNull(o)) == o.value
    ensures IntOrNull(n) == VNone <==> n == 0
    ensures ReadNumber(IntOrNull(n)) == n as real
  {
  }

  /** A list of strings reads back as itself. */
  lemma {:induction false} ReadStrList(xs: seq<string>)
    ensures ReadStrings(StrList(xs).items) == Some(xs)
    decreases |xs|
  {
    if xs != [] {
      var init := xs[..|xs| - 1];
      ReadStrList(init);
      assert StrList(xs).items[..|xs| - 1] == StrList(init).items;
      assert init + [xs[|xs| - 1]] == xs;
    }
  }

  function SerializeQuote(q: Quote): map<string, Value> {
    map["symbol" := VStr(q.symbol),
        "price" := NumberOrNull(q.price),
        "change" := OptNumberOrNull(q.change),
        "change_percent" := OptNumberOrNull(q.changePercent),
        "volume" := IntOrNull(q.volume)]
  }

  function SerializeIndicators(t: TechnicalIndicators): map<string, Value> {
    map["sma_20" := OptNumberOrNull(t.sma20),
        "sma_60" := OptNumberOrNull(t.sma60),
        "rsi_14" := OptNumberOrNull(t.rsi14)]
  }

  function OptionTypeName(t: OptionType): string {
    if t == Call then "call" else "put"
  }

  /** The recommendation's fields; `isoDate` renders the expiration date. */
  function SerializeRecommendation(r: OptionRecommendation, isoDate: Date -> string): map<string, Value> {
    map["symbol" := VStr(r.symbol),
        "underlying_symbol" := VStr(r.underlyingSymbol),
        "strike" := VFloat(r.strike),
        "expiration" := VStr(isoDate(r.expiration)),
        "option_type" := VStr(OptionTypeName(r.optionType)),
        "bid" := VFloat(r.bid),
        "ask" := VFloat(r.ask),
        "mid_price" := VFloat(r.midPrice),
        "premium_yield" := VFloat(r.premiumYield),
        "volume" := VInt(r.volume),
        "open_interest" := VInt(r.openInterest)]
  }

  /** `serialize_screening_result`. */
  function SerializeScreeningResult(r: ScreeningResult, isoDate: Date -> string): map<string, Value> {
    map["symbol" := VStr(r.symbol),
        "timestamp" := VStr(r.timestamp),
        "matches" := VBool(r.matches),
        "signal_strength" := VFloat(r.signalStrength),
        "conditions_met" := StrList(r.conditionsMet),
        "conditions_missed" := StrList(r.conditionsMissed),
        "quote" := if r.quote.Some? then VDict(SerializeQuote(r.quote.value)) else VNone,
        "indicators" := if r.indicators.Some? then VDict(SerializeIndicators(r.indicators.value)) else VNone,
        "option_recommendation" :=
          if r.optionRecommendation.Some? then VDict(SerializeRecommendation(r.optionRecommendation.value, isoDate))
          else VNone,
        "error" := OptStr(r.error)]
  }

  const ResultKeys: set<string> := {"symbol", "timestamp", "matches", "signal_strength", "conditions_met",
                                    "conditions_missed", "quote", "indicators", "option_recommendation", "error"}

  /**
   * The dictionary has exactly the ten keys; symbol, flag, strength, condition lists and
   * error are carried over unchanged; each sub-object is null exactly when it is absent.
   */
  lemma {:induction false} SerializeScreeningResultSpec(r: ScreeningResult, isoDate: Date -> string)
    ensures var d := SerializeScreeningResult(r, isoDate);
      && d.Keys == ResultKeys
      && d["symbol"] == VStr(r.symbol)
      && d["matches"] == VBool(r.matches)
      && ReadNumber(d["signal_strength"]) == r.signalStrength
      && d["conditions_met"].VList? && ReadStrings(d["conditions_met"].items) == Some(r.conditionsMet)
      && d["conditions_missed"].VList? && ReadStrings(d["conditions_missed"].items) == Some(r.conditionsMissed)
      && (d["error"] == VNone <==> r.error.None?)
      && (r.error.Some? ==> d["error"] == VStr(r.error.value))
      && (d["quote"] == VNone <==> r.quote.None?)
      && (d["indicators"] == VNone <==> r.indicators.None?)
      && (d["option_recommendation"] == VNone <==> r.optionRecommendation.None?)
  {
    ReadStrList(r.conditionsMet);
    ReadStrList(r.conditionsMissed);
  }

  /**
   * Inside the quote and the indicators a zero or missing number becomes null, anything
   * else reads back as the number.
   */
  lemma {:induction false} SerializedNumbers(r: ScreeningResult, isoDate: Date -> string)
    ensures var d := SerializeScreeningResult(r, isoDate);
      && (r.quote.Some? ==>
            && d["quote"].VDict?
            && (d["quote"].entries["price"] == VNone <==> r.quote.value.price == 0.0)
            && ReadNumber(d["quote"].entries["price"]) == r.quote.value.price
            && (d["quote"].entries["volume"] == VNone <==> r.quote.value.volume == 0)
            && (d["quote"].entries["change"] == VNone <==> r.quote.value.change.None? || r.quote.value.change.value == 0.0))
      && (r.indicators.Some? ==>
            && d["indicators"].VDict?
            && (d["indicators"].entries["rsi_14"] == VNone <==>
                  r.indicators.value.rsi14.None? || r.indicators.value.rsi14.value == 0.0)
            && (r.indicators.value.sma20.Some? ==>
                  ReadNumber(d["indicators"].entries["sma_20"]) == r.indicators.value.sma20.value))
  {
  }

  /** `serialize_stats`; `round2` is `round(x, 2)`. */
  function SerializeStats(stats: ScreeningStats, round2: real -> real): map<string, Value> {
    map["total_symbols" := VInt(stats.totalSymbols),
        "successful" := VInt(stats.successful),
        "failed" := VInt(stats.failed),
        "matches" := VInt(stats.matches),
        "success_rate" := VFloat(round2(stats.SuccessRate())),
        "start_time" := VStr(stats.startTime),
        "end_time" := VStr(stats.endTime),
        "duration_seconds" := VFloat(round2(stats.durationSeconds))]
  }

  // ---------------------------------------------------------------- Handler

  /** Why loading the strategy failed: the file is missing, or anything else with its message. */
  datatype LoadError = FileNotFound | LoadFailed(message: string)

  /** What a screening run hands back: the matching results and the statistics. */
  datatype Outcome = Outcome(matches: seq<ScreeningResult>, stats: ScreeningStats)

  /** Everything the handler reaches outside itself. */
  datatype Runtime = Runtime(
    requestId: Option<string>,
    now: string,
    defaultSymbols: string,
    configError: Option<string>,
    fileExists: string -> bool,
    loadStrategy: string -> Result<Strategy, LoadError>,
    runScreening: (Value, Strategy, bool) -> Result<Outcome, string>,
    isoDate: Date -> string,
    round2: real -> real)

  datatype Response = Response(statusCode: int, body: map<string, Value>)

  const NoSymbolsMessage: string := "No symbols provided in event"
  const NoSymbolsConfiguredMessage: string := "No symbols to screen"
  /** The TypeError `"." in x` raises for a number or a bool. */
  const NotContainerMessage: string := "TypeError: argument is not iterable"
  /** The TypeError `len(x)` raises for a value without a length. */
  const NoLenMessage: string := "TypeError: object has no len()"

  function ErrorBody(message: string): map<string, Value> {
    map["error" := VStr(message)]
  }

  function Lookup(event: map<string, Value>, key: string, default: Value): Value {
    if key in event then event[key] else default
  }

  /** `notify and not dry_run`, with notify defaulting to true and dry_run to false. */
  predicate NotifyFlag(event: map<string, Value>) {
    Truthy(Lookup(event, "notify", VBool(true))) && !Truthy(Lookup(event, "dry_run", VBool(false)))
  }

  /** The DEFAULT_SYMBOLS fallback: an empty value is replaced by the comma-separated list. */
  function SymbolsFallback(symbols: Value, defaultSymbols: string): Value {
    if !Truthy(symbols) || (symbols.VList? && |symbols.items| == 0) then
      (if defaultSymbols != "" then StrList(Split(defaultSymbols, ',')) else VList([]))
    else symbols
  }

  /** The path resolved for the event's strategy value, or the error resolving raises. */
  function StrategyPathOf(v: Value, fileExists: string -> bool): Result<string, string> {
    if !Truthy(v) then Ok(GetStrategyPath(None, fileExists))
    else if v.VStr? then Ok(GetStrategyPath(Some(v.s), fileExists))
    else Err(NotContainerMessage)
  }

  /** `len(symbols)`. */
  function Len(v: Value): Result<int, string> {
    match v
    case VList(items) => Ok(|items|)
    case VStr(s) => Ok(|s|)
    case VDict(entries) => Ok(|entries|)
    case _ => Err(NoLenMessage)
  }

  /** The body of a successful invocation. */
  function SuccessBody(event: map<string, Value>, rt: Runtime, strategy: Strategy, processed: int,
                       outcome: Outcome): map<string, Value> {
    var stats := SerializeStats(outcome.stats, rt.round2);
    map["request_id" := VStr(if rt.requestId.Some? then rt.requestId.value else "unknown"),
        "timestamp" := VStr(rt.now),
        "strategy" := strategy.name,
        "symbols_processed" := VInt(processed),
        "matches_found" := stats["matches"],
        "duration_seconds" := stats["duration_seconds"],
        "matches" :=
          if Truthy(Lookup(event, "dry_run", VBool(false))) then VList([])
          else VList(seq(|outcome.matches|, i requires 0 <= i < |outcome.matches| =>
                           VDict(SerializeScreeningResult(outcome.matches[i], rt.isoDate)))),
        "stats" := VDict(stats)]
  }

  /** `handler`: every failure becomes a status code and an error body, checked in this order. */
  function Handler(event: map<string, Value>, rt: Runtime): Response {
    var symbols0 := Lookup(event, "symbols", VList([]));
    if !Truthy(symbols0) then Response(400, ErrorBody(NoSymbolsMessage))
    else
      var symbols := SymbolsFallback(symbols0, rt.defaultSymbols);
      if !Truthy(symbols) then Response(400, ErrorBody(NoSymbolsConfiguredMessage))
      else if rt.configError.Some? then Response(500, ErrorBody("Configuration error: " + rt.configError.value))
      else match StrategyPathOf(Lookup(event, "strategy", VNone), rt.fileExists)
        case Err(e) => Response(500, ErrorBody("Strategy load failed: " + e))
        case Ok(path) =>
          match rt.loadStrategy(path)
          case Err(FileNotFound) => Response(404, ErrorBody("Strategy file not found: " + path))
          case Err(LoadFailed(e)) => Response(500, ErrorBody("Strategy load failed: " + e))
          case Ok(strategy) =>
            match Len(symbols)
            case Err(e) => Response(500, ErrorBody("Screening failed: " + e))
            case Ok(n) =>
              match rt.runScreening(symbols, strategy, NotifyFlag(event))
              case Err(e) => Response(500, ErrorBody("Screening failed: " + e))
              case Ok(outcome) => Response(200, SuccessBody(event, rt, strategy, n, outcome))
  }

  /** Once the first guard has passed, the fallback leaves the symbols as they are. */
  lemma {:induction false} SymbolsFallbackUnreachable(symbols: Value, defaultSymbols: string)
    requires Truthy(symbols)
    ensures SymbolsFallback(symbols, defaultSymbols) == symbols
  {
  }

  /**
   * Empty or missing symbols give 400 whatever the runtime does, so neither the
   * configuration nor the strategy is consulted; and DEFAULT_SYMBOLS never changes the
   * answer, nor is "No symbols to screen" ever given.
   */
  lemma {:induction false} HandlerSymbols(event: map<string, Value>, rt: Runtime, defaultSymbols: string)
    ensures !Truthy(Lookup(event, "symbols", VList([]))) ==> Handler(event, rt) == Response(400, ErrorBody(NoSymbolsMessage))
    ensures Handler(event, rt.(defaultSymbols := defaultSymbols)) == Handler(event, rt)
    ensures Handler(event, rt) != Response(400, ErrorBody(NoSymbolsConfiguredMessage))
  {
    var symbols0 := Lookup(event, "symbols", VList([]));
    if Truthy(symbols0) {
      SymbolsFallbackUnreachable(symbols0, rt.defaultSymbols);
      SymbolsFallbackUnreachable(symbols0, defaultSymbols);
    }
    assert ErrorBody(NoSymbolsMessage)["error"] != ErrorBody(NoSymbolsConfiguredMessage)["error"];
  }

  /**
   * The status codes: 200 exactly when every stage succeeded, 404 exactly when the
   * strategy file is missing, 400 exactly for missing symbols, and 500 otherwise.
   */
  lemma {:induction false} HandlerStatus(event: map<string, Value>, rt: Runtime)
    ensures var r := Handler(event, rt);
      var symbols := Lookup(event, "symbols", VList([]));
      var path := StrategyPathOf(Lookup(event, "strategy", VNone), rt.fileExists);
      && r.statusCode in {200, 400, 404, 500}
      && (r.statusCode == 400 <==> !Truthy(symbols))
      && (r.statusCode == 404 <==>
            Truthy(symbols) && rt.configError.None? && path.Ok? && rt.loadStrategy(path.value) == Err(FileNotFound))
      && (r.statusCode == 200 <==>
            && Truthy(symbols) && rt.configError.None? && path.Ok? && rt.loadStrategy(path.value).Ok?
            && Len(symbols).Ok?
            && rt.runScreening(symbols, rt.loadStrategy(path.value).value, NotifyFlag(event)).Ok?)
      && (r.statusCode != 200 ==> r.body.Keys == {"error"})
  {
    var symbols := Lookup(event, "symbols", VList([]));
    if Truthy(symbols) {
      SymbolsFallbackUnreachable(symbols, rt.defaultSymbols);
    }
  }

  /**
   * Screening is only ever asked with the flag `notify and not dry_run`: answering any
   * other flag differently changes nothing. A dry run answers with no matches.
   */
  lemma {:induction false} HandlerNotify(event: map<string, Value>, rt: Runtime)
    ensures Handler(event, rt) ==
      Handler(event, rt.(runScreening := (v, s, b) => rt.runScreening(v, s, NotifyFlag(event))))
    ensures "notify" !in event && "dry_run" !in event ==> NotifyFlag(event)
    ensures Truthy(Lookup(event, "dry_run", VBool(false))) ==> !NotifyFlag(event)
    ensures var r := Handler(event, rt);
      r.statusCode == 200 && Truthy(Lookup(event, "dry_run", VBool(false))) ==> r.body["matches"] == VList([])
  {
  }

  /** A successful body reports the statistics' match count and duration and the number of symbols given. */
  lemma {:induction false} HandlerSuccessBody(event: map<string, Value>, rt: Runtime)
    ensures var r := Handler(event, rt);
      var symbols := Lookup(event, "symbols", VList([]));
      r.statusCode == 200 ==>
        && r.body["matches_found"] == r.body["stats"].entries["matches"]
        && r.body["duration_seconds"] == r.body["stats"].entries["duration_seconds"]
        && r.body["symbols_processed"] == VInt(Len(symbols).value)
        && r.body["timestamp"] == VStr(rt.now)
  {
    var symbols := Lookup(event, "symbols", VList([]));
    if Truthy(symbols) {
      SymbolsFallbackUnreachable(symbols, rt.defaultSymbols);
    }
  }
}
