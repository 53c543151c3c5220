/**
 * Strategy documents after YAML loading: the dictionary is validated field by field and
 * turned into a `Strategy`. YAML parsing and file access are not part of this model; the
 * loaded document is a map from keys to `PyData.Value`s.
 */
module StrategyParser {
  import opened Wrappers
  import opened Seqs
  import opened Text
  import opened PyData
  import opened StrategyModels

  /**
   * Why parsing stopped: a `StrategyParseError` with its full message, another exception
   * escaping the parser (an AttributeError from `.get` on a non-dict, a TypeError from
   * iterating a non-iterable), or a value the model's typed fields cannot hold.
   */
  datatype ParseFailure =
    | ParseError(message: string)
    | Raised(message: string)
    | Unsupported(field: string)

  /** The message of a `StrategyParseError`: prefixed, plus the file when one is known. */
  function ParseErrorMessage(message: string, filePath: Option<string>): (m: string)
    ensures filePath.None? || filePath == Some("") ==> m == "Strategy parse error: " + message
    ensures filePath.Some? && filePath.value != "" ==> m == "Strategy parse error: " + message + " (file: " + filePath.value + ")"
  {
    var full := "Strategy parse error: " + message;
    if filePath.Some? && filePath.value != "" then full + " (file: " + filePath.value + ")" else full
  }

  function Fail<T>(message: string, filePath: Option<string>): Result<T, ParseFailure> {
    Err(ParseError(ParseErrorMessage(message, filePath)))
  }

  // ---------------------------------------------------------------- Required fields

  const RequiredFields: seq<string> := ["name", "version", "description", "entry_conditions"]

  function Absent(data: map<string, Value>): string -> bool {
    (f: string) => f !in data
  }

  /** The required fields missing from `data`, in the order name, version, description, entry_conditions. */
  function MissingFields(data: map<string, Value>): (missing: seq<string>)
    ensures forall f :: f in missing <==> f in RequiredFields && f !in data
    ensures missing == [] <==> "name" in data && "version" in data && "description" in data && "entry_conditions" in data
  {
    FilterMembers(RequiredFields, Absent(data));
    var missing := Filter(RequiredFields, Absent(data));
    assert missing == [] ==> "name" !in missing && "version" !in missing && "description" !in missing && "entry_conditions" !in missing;
    assert missing != [] ==> missing[0] in missing;
    missing
  }

  /** The first missing field is reported first: a document without a name lists "name" at the head. */
  lemma {:induction false} MissingNameFirst(data: map<string, Value>)
    requires "name" !in data
    ensures MissingFields(data) != [] && MissingFields(data)[0] == "name"
  {
    assert RequiredFields == ["name"] + RequiredFields[1..];
    FilterAppend(["name"], RequiredFields[1..], Absent(data));
    assert Filter(["name"], Absent(data)) == ["name"] by {
      assert ["name"][..0] == [];
    }
  }

  // ---------------------------------------------------------------- Typed field values

  /** A float field: ints, bools and finite floats are accepted. */
  function RealOf(v: Value, field: string): (r: Result<real, ParseFailure>)
    ensures r.Ok? <==> AsNum(v).Some? && AsNum(v).value.Finite?
    ensures r.Ok? ==> AsNum(v) == Some(Finite(r.value))
  {
    match AsNum(v)
    case Some(Finite(x)) => Ok(x)
    case _ => Err(Unsupported(field))
  }

  /** An int field: ints and bools are accepted. */
  function IntOf(v: Value, field: string): (r: Result<int, ParseFailure>)
    ensures r.Ok? <==> AsInt(v).Some?
    ensures r.Ok? ==> AsInt(v) == Some(r.value)
  {
    match AsInt(v)
    case Some(k) => Ok(k)
    case None => Err(Unsupported(field))
  }

  /** `d.get(key, default)` on a dict the caller already knows to be one. */
  function Lookup(m: map<string, Value>, key: string, default: Value): (r: Value)
    ensures key in m ==> r == m[key]
    ensures key !in m ==> r == default
  {
    if key in m then m[key] else default
  }

  // ---------------------------------------------------------------- Stock criteria and option screening

  /** `_parse_stock_criteria`: each field read with `.get`, absent ones defaulted; a non-dict raises. */
  function ParseStockCriteria(v: Value): (r: Result<StockCriteria, ParseFailure>)
    ensures r.Err? <==> !v.VDict?
    ensures r.Err? ==> r.error == Raised(AttributeErrorMessage)
    ensures v == VDict(map[]) ==> r == Ok(DefaultStockCriteria)
    ensures r.Ok? ==> && r.value.minRevenue == Lookup(v.entries, "min_revenue", DefaultStockCriteria.minRevenue)
                      && r.value.minMarketCap == Lookup(v.entries, "min_market_cap", DefaultStockCriteria.minMarketCap)
                      && r.value.maxMarketCap == Lookup(v.entries, "max_market_cap", DefaultStockCriteria.maxMarketCap)
                      && r.value.minPrice == Lookup(v.entries, "min_price", DefaultStockCriteria.minPrice)
                      && r.value.maxPrice == Lookup(v.entries, "max_price", DefaultStockCriteria.maxPrice)
                      && r.value.exchanges == Lookup(v.entries, "exchanges", DefaultStockCriteria.exchanges)
                      && r.value.sectors == Lookup(v.entries, "sectors", DefaultStockCriteria.sectors)
                      && r.value.excludeSectors == Lookup(v.entries, "exclude_sectors", DefaultStockCriteria.excludeSectors)
  {
    match v
    case VDict(m) =>
      Ok(StockCriteria(Lookup(m, "min_revenue", VNone), Lookup(m, "min_market_cap", VNone),
                       Lookup(m, "max_market_cap", VNone), Lookup(m, "min_price", VNone),
                       Lookup(m, "max_price", VNone), Lookup(m, "exchanges", VList([])),
                       Lookup(m, "sectors", VList([])), Lookup(m, "exclude_sectors", VList([]))))
    case _ => Err(Raised(AttributeErrorMessage))
  }

  /** `_parse_option_screening`: each parameter read with `.get` and its default; a non-dict raises. */
  function ParseOptionScreening(v: Value): Result<OptionScreening, ParseFailure> {
    match v
    case VDict(m) =>
      var minYield :- RealOf(Lookup(m, "min_premium_yield", VFloat(DefaultMinPremiumYield)), "min_premium_yield");
      var targetDte :- IntOf(Lookup(m, "target_dte", VInt(DefaultTargetDte)), "target_dte");
      var minDte :- IntOf(Lookup(m, "min_dte", VInt(DefaultMinDte)), "min_dte");
      var maxDte :- IntOf(Lookup(m, "max_dte", VInt(DefaultMaxDte)), "max_dte");
      var tolerance :- RealOf(Lookup(m, "tolerance", VFloat(DefaultTolerance)), "tolerance");
      var minVolume :- IntOf(Lookup(m, "min_volume", VInt(DefaultMinVolume)), "min_volume");
      var minOpenInterest :- IntOf(Lookup(m, "min_open_interest", VInt(DefaultMinOpenInterest)), "min_open_interest");
      Ok(OptionScreening(minYield, targetDte, minDte, maxDte, tolerance, minVolume, minOpenInterest))
    case _ => Err(Raised(AttributeErrorMessage))
  }

  /**
   * Option screening: a non-dict raises, an empty dict gives the defaults, and a given
   * numeric parameter is taken over while the absent ones keep their defaults.
   */
  lemma {:induction false} ParseOptionScreeningSpec(v: Value)
    ensures ParseOptionScreening(v).Err? && !v.VDict? ==> ParseOptionScreening(v) == Err(Raised(AttributeErrorMessage))
    ensures !v.VDict? ==> ParseOptionScreening(v).Err?
    ensures v == VDict(map[]) ==> ParseOptionScreening(v) == Ok(DefaultOptionScreening)
    ensures v.VDict? && v.entries.Keys == {"min_dte"} && v.entries["min_dte"].VInt? ==>
      ParseOptionScreening(v) == Ok(DefaultOptionScreening.(minDte := v.entries["min_dte"].i))
    ensures var r := ParseOptionScreening(v);
      r.Ok? ==> v.VDict? && ("max_dte" in v.entries ==> AsInt(v.entries["max_dte"]) == Some(r.value.maxDte))
                         && ("max_dte" !in v.entries ==> r.value.maxDte == 60)
  {
  }

  /**
   * Every option-screening field of a dict section: the parse succeeds exactly when each
   * float field holds a finite number and each int field an int, and then every field is
   * the given value, or its default when the key is absent.
   */
  lemma {:induction false} ParseOptionScreeningFields(m: map<string, Value>)
    ensures var r := ParseOptionScreening(VDict(m));
      && (r.Ok? <==>
            && RealOf(Lookup(m, "min_premium_yield", VFloat(DefaultMinPremiumYield)), "").Ok?
            && AsInt(Lookup(m, "target_dte", VInt(DefaultTargetDte))).Some?
            && AsInt(Lookup(m, "min_dte", VInt(DefaultMinDte))).Some?
            && AsInt(Lookup(m, "max_dte", VInt(DefaultMaxDte))).Some?
            && RealOf(Lookup(m, "tolerance", VFloat(DefaultTolerance)), "").Ok?
            && AsInt(Lookup(m, "min_volume", VInt(DefaultMinVolume))).Some?
            && AsInt(Lookup(m, "min_open_interest", VInt(DefaultMinOpenInterest))).Some?)
      && (r.Err? ==> r.error.Unsupported?)
      && (r.Ok? ==>
            && AsNum(Lookup(m, "min_premium_yield", VFloat(DefaultMinPremiumYield))) == Some(Finite(r.value.minPremiumYield))
            && AsInt(Lookup(m, "target_dte", VInt(DefaultTargetDte))) == Some(r.value.targetDte)
            && AsInt(Lookup(m, "min_dte", VInt(DefaultMinDte))) == Some(r.value.minDte)
            && AsInt(Lookup(m, "max_dte", VInt(DefaultMaxDte))) == Some(r.value.maxDte)
            && AsNum(Lookup(m, "tolerance", VFloat(DefaultTolerance))) == Some(Finite(r.value.tolerance))
            && AsInt(Lookup(m, "min_volume", VInt(DefaultMinVolume))) == Some(r.value.minVolume)
            && AsInt(Lookup(m, "min_open_interest", VInt(DefaultMinOpenInterest))) == Some(r.value.minOpenInterest))
  {
  }

  // ---------------------------------------------------------------- Entry conditions

  function NotDictMessage(i: nat): string {
    "Entry condition " + NatToString(i) + " must be a dictionary"
  }

  function MissingKeyMessage(i: nat, key: string): string {
    "Entry condition " + NatToString(i) + " missing required field '" + key + "'"
  }

  const NoConditionsParseMessage: string := "Strategy must have at least one entry condition"

  /** The TypeError of iterating over a value that is neither a list, a str nor a dict. */
  const NotIterableMessage: string := "TypeError: object is not iterable"

  /** One entry condition, at index `i`: a dict with `type` and then `rule`; the other keys are defaulted. */
  function ParseCondition(v: Value, i: nat, filePath: Option<string>): (r: Result<Condition, ParseFailure>)
    ensures !v.VDict? ==> r == Fail(NotDictMessage(i), filePath)
    ensures v.VDict? && "type" !in v.entries ==> r == Fail(MissingKeyMessage(i, "type"), filePath)
    ensures v.VDict? && "type" in v.entries && "rule" !in v.entries ==> r == Fail(MissingKeyMessage(i, "rule"), filePath)
    ensures r.Ok? ==> && v.VDict?
                      && v.entries["type"] == VStr(r.value.kind) && v.entries["rule"] == VStr(r.value.rule)
                      && r.value.parameters == Lookup(v.entries, "parameters", VDict(map[]))
                      && r.value.description == Lookup(v.entries, "description", VStr(""))
                      && AsNum(Lookup(v.entries, "weight", VFloat(1.0))) == Some(Finite(r.value.weight))
  {
    match v
    case VDict(m) =>
      if "type" !in m then Fail(MissingKeyMessage(i, "type"), filePath)
      else if "rule" !in m then Fail(MissingKeyMessage(i, "rule"), filePath)
      else if !m["type"].VStr? then Err(Unsupported("type"))
      else if !m["rule"].VStr? then Err(Unsupported("rule"))
      else
        var weight :- RealOf(Lookup(m, "weight", VFloat(1.0)), "weight");
        Ok(Condition(m["type"].s, m["rule"].s, Lookup(m, "parameters", VDict(map[])),
                     Lookup(m, "description", VStr("")), weight))
    case _ => Fail(NotDictMessage(i), filePath)
  }

  /** A condition that gives only its type and rule gets the documented defaults. */
  lemma {:induction false} ParseConditionDefaults(kind: string, rule: string, i: nat, filePath: Option<string>)
    ensures ParseCondition(VDict(map["type" := VStr(kind), "rule" := VStr(rule)]), i, filePath) == Ok(DefaultCondition(kind, rule))
  {
    var m := map["type" := VStr(kind), "rule" := VStr(rule)];
    assert "parameters" !in m && "description" !in m && "weight" !in m;
  }

  /** The conditions of a list, in order; the first condition that fails stops the parse. */
  function ParseConditionList(items: seq<Value>, filePath: Option<string>): Result<seq<Condition>, ParseFailure>
    decreases |items|
  {
    if items == [] then Ok([])
    else
      var init :- ParseConditionList(items[..|items| - 1], filePath);
      var c :- ParseCondition(items[|items| - 1], |items| - 1, filePath);
      Ok(init + [c])
  }

  /** The loop of `_parse_entry_conditions` over a list, appending each parsed condition. */
  method ParseConditions(items: seq<Value>, filePath: Option<string>) returns (r: Result<seq<Condition>, ParseFailure>)
    ensures r == ParseConditionList(items, filePath)
  {
    var conditions: seq<Condition> := [];
    var i := 0;
    while i < |items|
      invariant 0 <= i <= |items|
      invariant ParseConditionList(items[..i], filePath) == Ok(conditions)
    {
      assert items[..i + 1][..i] == items[..i];
      var c := ParseCondition(items[i], i, filePath);
      if c.Err? {
        assert ParseConditionList(items[..i + 1], filePath) == Err(c.error);
        ParseConditionListPrefixError(items, i + 1, filePath);
        return Err(c.error);
      }
      conditions := conditions + [c.value];
      i := i + 1;
    }
    assert items[..i] == items;
    return Ok(conditions);
  }

  /** Once a prefix fails, every longer prefix fails the same way. */
  lemma {:induction false} ParseConditionListPrefixError(items: seq<Value>, k: nat, filePath: Option<string>)
    requires k <= |items|
    requires ParseConditionList(items[..k], filePath).Err?
    ensures ParseConditionList(items, filePath) == ParseConditionList(items[..k], filePath)
    decreases |items| - k
  {
    if k < |items| {
      assert items[..k + 1][..k] == items[..k];
      ParseConditionListPrefixError(items, k + 1, filePath);
    } else {
      assert items[..k] == items;
    }
  }

  /**
   * A parsed list has one condition per item, each the parse of its item at its index;
   * a failure is the failure of the first item that does not parse.
   */
  lemma {:induction false} ParseConditionListSpec(items: seq<Value>, filePath: Option<string>)
    ensures var r := ParseConditionList(items, filePath);
      r.Ok? ==> |r.value| == |items| && forall j :: 0 <= j < |items| ==> ParseCondition(items[j], j, filePath) == Ok(r.value[j])
    ensures var r := ParseConditionList(items, filePath);
      r.Err? ==> exists i :: (0 <= i < |items|
        && ParseCondition(items[i], i, filePath) == Err(r.error)
        && forall j :: 0 <= j < i ==> ParseCondition(items[j], j, filePath).Ok?)
    decreases |items|
  {
    if items != [] {
      var init := items[..|items| - 1];
      ParseConditionListSpec(init, filePath);
      assert forall j :: 0 <= j < |init| ==> init[j] == items[j];
      var r := ParseConditionList(items, filePath);
      if r.Err? && ParseConditionList(init, filePath).Ok? {
        var i := |items| - 1;
        assert ParseCondition(items[i], i, filePath) == Err(r.error);
        assert forall j :: 0 <= j < i ==> ParseCondition(items[j], j, filePath).Ok?;
      }
    }
  }

  /**
   * `_parse_entry_conditions` on whatever the document held: a list is parsed item by
   * item; a str or a dict iterates over characters or keys, none of which is a dict, so
   * it fails at index 0 unless empty; anything else is not iterable. No conditions is an error.
   */
  method ParseEntryConditions(v: Value, filePath: Option<string>) returns (r: Result<seq<Condition>, ParseFailure>)
    ensures r == EntryConditions(v, filePath)
  {
    match v {
      case VList(items) =>
        var parsed := ParseConditions(items, filePath);
        if parsed.Ok? && parsed.value == [] {
          return Fail(NoConditionsParseMessage, filePath);
        }
        return parsed;
      case VStr(s) =>
        return if s == "" then Fail(NoConditionsParseMessage, filePath) else Fail(NotDictMessage(0), filePath);
      case VDict(m) =>
        return if m == map[] then Fail(NoConditionsParseMessage, filePath) else Fail(NotDictMessage(0), filePath);
      case _ =>
        return Err(Raised(NotIterableMessage));
    }
  }

  function EntryConditions(v: Value, filePath: Option<string>): Result<seq<Condition>, ParseFailure> {
    match v
    case VList(items) =>
      var cs :- ParseConditionList(items, filePath);
      if cs == [] then Fail(NoConditionsParseMessage, filePath) else Ok(cs)
    case VStr(s) => if s == "" then Fail(NoConditionsParseMessage, filePath) else Fail(NotDictMessage(0), filePath)
    case VDict(m) => if m == map[] then Fail(NoConditionsParseMessage, filePath) else Fail(NotDictMessage(0), filePath)
    case _ => Err(Raised(NotIterableMessage))
  }

  /** An empty list of conditions is rejected; a parsed list is never empty and has one condition per item. */
  lemma {:induction false} EntryConditionsSpec(v: Value, filePath: Option<string>)
    ensures v == VList([]) ==> EntryConditions(v, filePath) == Fail(NoConditionsParseMessage, filePath)
    ensures var r := EntryConditions(v, filePath);
      r.Ok? ==> v.VList? && r.value != [] && |r.value| == |v.items|
                && forall j :: 0 <= j < |v.items| ==> ParseCondition(v.items[j], j, filePath) == Ok(r.value[j])
    ensures v.VNone? || v.VInt? || v.VFloat? || v.VBool? || v.VInf? ==> EntryConditions(v, filePath) == Err(Raised(NotIterableMessage))
  {
    if v.VList? {
      ParseConditionListSpec(v.items, filePath);
    }
  }

  // ---------------------------------------------------------------- The document

  /**
   * `_parse_data`: missing required fields first, then stock criteria, entry conditions
   * and option screening in that order, then the strategy's own validation, whose
   * ValueError becomes a parse error.
   */
  function ParseData(data: map<string, Value>, filePath: Option<string>): Result<Strategy, ParseFailure> {
    var missing := MissingFields(data);
    if missing != [] then Fail("Missing required fields: " + Join(missing, ", "), filePath)
    else
      var criteria :- ParseStockCriteria(Lookup(data, "stock_criteria", VDict(map[])));
      var conditions :- EntryConditions(Lookup(data, "entry_conditions", VList([])), filePath);
      var screening :- ParseOptionScreening(Lookup(data, "option_screening", VDict(map[])));
      match NewStrategy(data["name"], data["version"], data["description"], criteria, conditions, screening,
                        Lookup(data, "tags", VList([])))
      case Err(e) => Fail("Failed to create Strategy object: " + e, filePath)
      case Ok(strategy) => Ok(strategy)
  }

  /**
   * The document: a missing required field is reported, listing all missing ones in
   * order, before anything else is looked at; a parsed strategy is valid, carries the
   * document's name, version and description and the parsed conditions, and takes the
   * defaults for absent sections; a falsy name is wrapped as a parse error.
   */
  lemma {:induction false} ParseDataSpec(data: map<string, Value>, filePath: Option<string>)
    ensures MissingFields(data) != [] ==>
      ParseData(data, filePath) == Fail("Missing required fields: " + Join(MissingFields(data), ", "), filePath)
    ensures "name" !in data ==>
      ParseData(data, filePath) == Fail("Missing required fields: " + Join(MissingFields(data), ", "), filePath)
      && MissingFields(data) != [] && MissingFields(data)[0] == "name"
    ensures var r := ParseData(data, filePath);
      r.Ok? ==> && ValidStrategy(r.value)
                && "name" in data && r.value.name == data["name"]
                && "version" in data && r.value.version == data["version"]
                && "description" in data && r.value.description == data["description"]
                && EntryConditions(data["entry_conditions"], filePath) == Ok(r.value.entryConditions)
                && ("option_screening" !in data ==> r.value.optionScreening == DefaultOptionScreening)
                && ("stock_criteria" !in data ==> r.value.stockCriteria == DefaultStockCriteria)
                && ("tags" !in data ==> r.value.tags == VList([]))
    ensures MissingFields(data) == [] && !Truthy(data["name"]) && ParseStockCriteria(Lookup(data, "stock_criteria", VDict(map[]))).Ok?
            && EntryConditions(data["entry_conditions"], filePath).Ok?
            && ParseOptionScreening(Lookup(data, "option_screening", VDict(map[]))).Ok? ==>
      ParseData(data, filePath) == Fail("Failed to create Strategy object: " + EmptyNameMessage, filePath)
  {
    if "name" !in data {
      MissingNameFirst(data);
    }
    var r := ParseData(data, filePath);
    if r.Ok? {
      var conditions := EntryConditions(data["entry_conditions"], filePath);
      assert conditions.Ok? && conditions.value != [];
      NewStrategyValid(data["name"], data["version"], data["description"],
                       ParseStockCriteria(Lookup(data, "stock_criteria", VDict(map[]))).value, conditions.value,
                       ParseOptionScreening(Lookup(data, "option_screening", VDict(map[]))).value,
                       Lookup(data, "tags", VList([])));
      ParseOptionScreeningSpec(VDict(map[]));
    }
  }

  // ---------------------------------------------------------------- Paths

  /**
   * `_resolve_path`: a relative path is joined under the strategies directory when one
   * is set and non-empty; an absolute path, or no directory, leaves the path as given.
   */
  function ResolvePath(path: string, strategiesDir: Option<string>): (r: string)
    ensures |path| > 0 && path[0] == '/' ==> r == path
    ensures strategiesDir.None? || strategiesDir == Some("") ==> r == path
    ensures !(|path| > 0 && path[0] == '/') && strategiesDir.Some? && strategiesDir.value != "" ==>
      r == strategiesDir.value + "/" + path
  {
    var absolute := |path| > 0 && path[0] == '/';
    if !absolute && strategiesDir.Some? && strategiesDir.value != "" then strategiesDir.value + "/" + path else path
  }
}
