/**
 * What `OpenSearchQueryParser` does to a Vega `data.url` request: the
 * magic tokens it recognises, the time bounds and range filters it builds,
 * the recursive rewrite of `body.query` and `body.aggs`, and the validation
 * of the legacy and modern context keys. Everything here is a function of
 * the request and of the parser's read-only collaborators; the parser class
 * in QueryParser performs the same rewrite step by step and is proved equal
 * to these functions.
 */
module ContextVars {
  import opened JsonValue
  import opened IntervalRounding

  // Magic tokens inside a request body.
  const TimeFilter: string := "%timefilter%"
  const AutoIntervalKey: string := "%autointerval%"
  const MustClause: string := "%dashboard_context-must_clause%"
  const MustNotClause: string := "%dashboard_context-must_not_clause%"
  const FilterClause: string := "%dashboard_context-filter_clause%"

  // Magic keys of the `url` object itself.
  const LegacyContext: string := "%context_query%"
  const Context: string := "%context%"
  const TimeField: string := "%timefield%"

  const DateFormat: string := "strict_date_optional_time"

  /** The time picker's bounds in epoch milliseconds; either may be unset. */
  datatype TimeBounds = TimeBounds(min: Option<int>, max: Option<int>)

  /**
   * The parser's read-only collaborators: the time bounds, the dashboard's
   * ambient boolean filter (a value, so every use is a copy), the
   * ISO-8601 formatter of an epoch-millisecond instant, and JavaScript's
   * number-to-string conversion (used only when a non-string time field
   * becomes a property name).
   */
  datatype Env = Env(bounds: TimeBounds, filters: Json, toIso: real -> string, showNumber: real -> string)

  datatype Side = Min | Max

  /** One kind per error the parser throws. */
  datatype ParseError =
    | BodyNotObject          // url.body must be an object
    | LegacyWithBodyQuery    // %context_query% together with body.query
    | LegacyWithContext      // %context_query% together with %context% or %timefield%
    | LegacyValueInvalid     // %context_query% is neither true nor a field name
    | QueryWithContext       // %context% or %timefield% together with body.query
    | AutoIntervalNotNumber  // %autointerval% is neither true nor a number
    | ShiftNotNumber         // shift must be a numeric value
    | UnknownUnit            // unit is not a known time unit
    | TimeFilterValueInvalid // %timefilter% is not true, "min" or "max"
    | MustNotPushable        // the runtime TypeError of pushing onto a missing bool.must list

  /** The errors the recursive rewrite can raise. */
  predicate InjectionError(e: ParseError) {
    e == AutoIntervalNotNumber || e == ShiftNotNumber || e == UnknownUnit || e == TimeFilterValueInvalid
  }

  datatype Result<+T> = Ok(value: T) | Err(error: ParseError) {
    predicate IsFailure() {
      Err?
    }

    function PropagateFailure<U>(): Result<U>
      requires Err?
    {
      Err(error)
    }

    function Extract(): T
      requires Ok?
    {
      value
    }
  }

  /** Prefixes a successful list with `prefix`; an error passes through. */
  function Then<T>(prefix: seq<T>, r: Result<seq<T>>): Result<seq<T>> {
    match r
    case Ok(rest) => Ok(prefix + rest)
    case Err(e) => Err(e)
  }

  lemma ThenNil<T>(r: Result<seq<T>>)
    ensures Then([], r) == r
  {
    if r.Ok? {
      assert [] + r.value == r.value;
    }
  }

  lemma ThenThen<T>(a: seq<T>, b: seq<T>, r: Result<seq<T>>)
    ensures Then(a, Then(b, r)) == Then(a + b, r)
  {
    if r.Ok? {
      assert a + (b + r.value) == (a + b) + r.value;
    }
  }

  // ---------------------------------------------------------------------
  // Time bounds and range filters (_getTimeBound, _createRangeFilter)
  // ---------------------------------------------------------------------

  /** Milliseconds per accepted unit name. */
  const UnitTable: map<string, real> := map[
    "w" := 604800000.0, "week" := 604800000.0,
    "d" := 86400000.0, "day" := 86400000.0,
    "h" := 3600000.0, "hour" := 3600000.0,
    "m" := 60000.0, "minute" := 60000.0,
    "s" := 1000.0, "second" := 1000.0
  ]

  /** The unit switch on `opts.unit || 'd'`; None for a unit it does not know. */
  function UnitMillis(unit: Option<Json>): Option<real> {
    var u := if unit.Some? && Truthy(unit.value) then unit.value else Str("d");
    if u == Str("w") || u == Str("week") then Some(1000.0 * 60.0 * 60.0 * 24.0 * 7.0)
    else if u == Str("d") || u == Str("day") then Some(1000.0 * 60.0 * 60.0 * 24.0)
    else if u == Str("h") || u == Str("hour") then Some(1000.0 * 60.0 * 60.0)
    else if u == Str("m") || u == Str("minute") then Some(1000.0 * 60.0)
    else if u == Str("s") || u == Str("second") then Some(1000.0)
    else None
  }

  /** The switch agrees with the table: a falsy unit means days, an unknown one is refused. */
  lemma UnitMillisFollowsTable(unit: Option<Json>)
    ensures unit.None? || !Truthy(unit.value) ==> UnitMillis(unit) == Some(UnitTable["d"])
    ensures unit.Some? && Truthy(unit.value) ==>
      (UnitMillis(unit).Some? <==> unit.value.Str? && unit.value.s in UnitTable) &&
      (UnitMillis(unit).Some? ==> UnitMillis(unit).value == UnitTable[unit.value.s])
  {
  }

  /** `bounds[type]?.valueOf() || 0`. */
  function BoundOrZero(bounds: TimeBounds, side: Side): int {
    var b := if side == Min then bounds.min else bounds.max;
    if b.Some? then b.value else 0
  }

  /** Whether `_getTimeBound` throws on these options: the answer is the same for both sides. */
  predicate ShiftRejected(opts: Json) {
    var shift := Member(opts, "shift");
    shift.Some? && Truthy(shift.value) && (!shift.value.Num? || UnitMillis(Member(opts, "unit")).None?)
  }

  /** `_getTimeBound(opts, side)`: the bound, moved by `shift` units when shift is truthy. */
  function TimeBound(bounds: TimeBounds, opts: Json, side: Side): (r: Result<real>)
    ensures r.Err? <==> ShiftRejected(opts)
    ensures r.Err? ==> r.error == ShiftNotNumber || r.error == UnknownUnit
  {
    var result := BoundOrZero(bounds, side) as real;
    var shift := Member(opts, "shift");
    if shift.None? || !Truthy(shift.value) then Ok(result)
    else if !shift.value.Num? then Err(ShiftNotNumber)
    else match UnitMillis(Member(opts, "unit"))
      case None => Err(UnknownUnit)
      case Some(multiplier) => Ok(result + shift.value.n * multiplier)
  }

  /** A shift that is not a number is checked before the unit. */
  lemma TimeBoundErrors(bounds: TimeBounds, opts: Json, side: Side)
    ensures TimeBound(bounds, opts, side) == Err(ShiftNotNumber) <==>
      Member(opts, "shift").Some? && Truthy(Member(opts, "shift").value) && !Member(opts, "shift").value.Num?
    ensures TimeBound(bounds, opts, side) == Err(UnknownUnit) <==>
      Member(opts, "shift").Some? && Member(opts, "shift").value.Num? && Truthy(Member(opts, "shift").value) &&
      UnitMillis(Member(opts, "unit")).None?
  {
  }

  /** The keys `_createRangeFilter` writes or removes. */
  predicate RangeKey(k: string) {
    k == "gte" || k == "lte" || k == "format" || k == TimeFilter || k == "shift" || k == "unit"
  }

  /**
   * `_createRangeFilter(obj)`: obj gains `gte`/`lte` (the ISO strings of the
   * shifted bounds) and `format`, and loses the token, `shift` and `unit`.
   */
  function RangeFilter(env: Env, props: seq<Prop>): (r: Result<seq<Prop>>)
    ensures r.Err? <==> TimeBound(env.bounds, Obj(props), Min).Err?
    ensures r.Err? ==> r.error == TimeBound(env.bounds, Obj(props), Min).error
  {
    var lo :- TimeBound(env.bounds, Obj(props), Min);
    // shift and unit are the same for both bounds, so the second call cannot fail
    var hi := TimeBound(env.bounds, Obj(props), Max).value;
    Ok(StripRangeOptions(SetBounds(props, env.toIso(lo), env.toIso(hi))))
  }

  /** With both bounds computed, the range filter holds their ISO strings as `gte` and `lte`. */
  lemma RangeFilterBounds(env: Env, props: seq<Prop>, lo: real, hi: real)
    requires TimeBound(env.bounds, Obj(props), Min) == Ok(lo)
    requires TimeBound(env.bounds, Obj(props), Max) == Ok(hi)
    ensures RangeFilter(env, props).Ok?
    ensures Get(RangeFilter(env, props).value, "gte") == Some(Str(env.toIso(lo)))
    ensures Get(RangeFilter(env, props).value, "lte") == Some(Str(env.toIso(hi)))
  {
    var bounded := SetBounds(props, env.toIso(lo), env.toIso(hi));
    var r := StripRangeOptions(bounded);
    assert RangeFilter(env, props) == Ok(r);
    StripKeeps(bounded, "gte");
    StripKeeps(bounded, "lte");
  }

  /** The range filter carries the date format and no longer the token, `shift` or `unit`. */
  lemma RangeFilterFormat(env: Env, props: seq<Prop>, lo: real, hi: real)
    requires TimeBound(env.bounds, Obj(props), Min) == Ok(lo)
    requires TimeBound(env.bounds, Obj(props), Max) == Ok(hi)
    ensures RangeFilter(env, props).Ok?
    ensures var r := RangeFilter(env, props).value;
      && Get(r, "format") == Some(Str(DateFormat))
      && Get(r, TimeFilter) == None && Get(r, "shift") == None && Get(r, "unit") == None
  {
    var bounded := SetBounds(props, env.toIso(lo), env.toIso(hi));
    var r := StripRangeOptions(bounded);
    assert RangeFilter(env, props) == Ok(r);
    StripKeeps(bounded, "format");
  }

  /** Every other property of the object is kept. */
  lemma RangeFilterKeeps(env: Env, props: seq<Prop>, k: string)
    requires RangeFilter(env, props).Ok? && !RangeKey(k)
    ensures Get(RangeFilter(env, props).value, k) == Get(props, k)
  {
    var lo := TimeBound(env.bounds, Obj(props), Min).value;
    var hi := TimeBound(env.bounds, Obj(props), Max).value;
    var bounded := SetBounds(props, env.toIso(lo), env.toIso(hi));
    assert RangeFilter(env, props) == Ok(StripRangeOptions(bounded));
    StripKeeps(bounded, k);
    SetBoundsKeeps(props, env.toIso(lo), env.toIso(hi), k);
  }

  /** `obj.gte = gte; obj.lte = lte; obj.format = ...`. */
  function SetBounds(props: seq<Prop>, gte: string, lte: string): (r: seq<Prop>)
    ensures Get(r, "gte") == Some(Str(gte)) && Get(r, "lte") == Some(Str(lte))
    ensures Get(r, "format") == Some(Str(DateFormat))
  {
    Set(Set(Set(props, "gte", Str(gte)), "lte", Str(lte)), "format", Str(DateFormat))
  }

  /** Writing the bounds leaves every other property alone. */
  lemma SetBoundsKeeps(props: seq<Prop>, gte: string, lte: string, k: string)
    requires k != "gte" && k != "lte" && k != "format"
    ensures Get(SetBounds(props, gte, lte), k) == Get(props, k)
  {
  }

  /** `delete obj[TIMEFILTER]; delete obj.shift; delete obj.unit`. */
  function StripRangeOptions(props: seq<Prop>): (r: seq<Prop>)
    ensures Get(r, TimeFilter) == None && Get(r, "shift") == None && Get(r, "unit") == None
  {
    Delete(Delete(Delete(props, TimeFilter), "shift"), "unit")
  }

  /** Removing the options leaves every other property alone. */
  lemma StripKeeps(props: seq<Prop>, k: string)
    requires k != TimeFilter && k != "shift" && k != "unit"
    ensures Get(StripRangeOptions(props), k) == Get(props, k)
  {
  }

  // ---------------------------------------------------------------------
  // The recursive rewrite (_injectContextVars)
  // ---------------------------------------------------------------------

  /** The ambient clause list a dashboard-context token in an array stands for. */
  function ClauseTag(item: Json): Option<string> {
    if item == Str(FilterClause) then Some("filter")
    else if item == Str(MustClause) then Some("must")
    else if item == Str(MustNotClause) then Some("must_not")
    else None
  }

  /**
   * What replaces a clause token: the elements of the ambient clause when it
   * is an array, the clause itself when it is any other truthy value, and
   * nothing when it is absent or falsy.
   */
  function ClauseItems(filters: Json, tag: string): seq<Json> {
    match Clause(filters, tag)
    case None => []
    case Some(c) => if !Truthy(c) then [] else if c.Arr? then c.items else [c]
  }

  /** `filters.bool[tag]`, read without failing when `bool` is missing. */
  function Clause(filters: Json, tag: string): Option<Json> {
    match Member(filters, "bool")
    case None => None
    case Some(b) => Member(b, tag)
  }

  /**
   * `(bounds.max - bounds.min) / size` rounded to a label. With a bound
   * unset the difference is NaN, which fails every test of the ladder.
   */
  function AutoInterval(bounds: TimeBounds, size: real): string
    requires size != 0.0
  {
    match (bounds.min, bounds.max)
    case (Some(lo), Some(hi)) => RoundInterval((hi - lo) as real / size)
    case _ => Top
  }

  /** The replacement of one array element: zero, one or many elements. */
  function ExpandItem(env: Env, item: Json, isQuery: bool): (r: Result<seq<Json>>)
    decreases item, 2
    ensures r.Err? ==> InjectionError(r.error)
    ensures r.Ok? && !(isQuery && ClauseTag(item).Some?) ==> |r.value| == 1
  {
    if isQuery && ClauseTag(item).Some? then Ok(ClauseItems(env.filters, ClauseTag(item).value))
    else
      var x :- Inject(env, item, isQuery);
      Ok([x])
  }

  /** The new value of property `key` of an object whose old value is `sub`. */
  function RewriteValue(env: Env, key: string, sub: Json, isQuery: bool): (r: Result<Json>)
    decreases sub, 2
    ensures r.Err? ==> InjectionError(r.error)
    ensures !Truthy(sub) ==> r == Ok(sub)
  {
    if !Truthy(sub) then Ok(sub)
    else if key == "interval" && Member(sub, AutoIntervalKey).Some? && Truthy(Member(sub, AutoIntervalKey).value) then
      var size := Member(sub, AutoIntervalKey).value;
      if size == Bool(true) then Ok(Str(AutoInterval(env.bounds, 50.0)))
      else if size.Num? then Ok(Str(AutoInterval(env.bounds, size.n)))
      else Err(AutoIntervalNotNumber)
    else
      match Member(sub, TimeFilter)
      case None => Inject(env, sub, isQuery)
      case Some(token) => TimeFilterValue(env, sub, token)
  }

  /**
   * The value an object carrying `"%timefilter%": token` becomes: a bound
   * for "min" or "max", a range filter for true, an error otherwise.
   */
  function TimeFilterValue(env: Env, sub: Json, token: Json): (r: Result<Json>)
    requires sub.Obj?
    ensures r.Err? ==> InjectionError(r.error)
    ensures r == Err(TimeFilterValueInvalid) <==> token != Str("min") && token != Str("max") && token != Bool(true)
  {
    if token == Str("min") then
      var t :- TimeBound(env.bounds, sub, Min);
      Ok(Num(t))
    else if token == Str("max") then
      var t :- TimeBound(env.bounds, sub, Max);
      Ok(Num(t))
    else if token == Bool(true) then
      var range :- RangeFilter(env, sub.props);
      Ok(Obj(range))
    else Err(TimeFilterValueInvalid)
  }

  /** Two values with the same outline: arrays stay arrays, objects keep their keys, scalars stay put. */
  predicate SameOutline(before: Json, after: Json) {
    && (before.Arr? <==> after.Arr?)
    && (before.Obj? ==> after.Obj? && Keys(after.props) == Keys(before.props))
    && (!before.Arr? && !before.Obj? ==> after == before)
  }

  /** `_injectContextVars(node, isQuery)`: the rewritten node, or the first error. */
  function Inject(env: Env, node: Json, isQuery: bool): (r: Result<Json>)
    decreases node, 1
    ensures r.Err? ==> InjectionError(r.error)
    ensures r.Ok? ==> SameOutline(node, r.value)
  {
    match node
    case Arr(_) =>
      var items :- InjectItems(env, node, isQuery, 0);
      Ok(Arr(items))
    case Obj(_) =>
      var props :- InjectProps(env, node, isQuery, 0);
      Ok(Obj(props))
    case _ => Ok(node)
  }

  /** The array loop from position k on. */
  function InjectItems(env: Env, node: Json, isQuery: bool, k: nat): (r: Result<seq<Json>>)
    requires node.Arr? && k <= |node.items|
    decreases node, 0, |node.items| - k
    ensures r.Err? ==> InjectionError(r.error)
    ensures r.Ok? && !isQuery ==> |r.value| == |node.items| - k
  {
    if k == |node.items| then Ok([])
    else
      var head :- ExpandItem(env, node.items[k], isQuery);
      Then(head, InjectItems(env, node, isQuery, k + 1))
  }

  /** The `Object.keys` loop from property i on. */
  function InjectProps(env: Env, node: Json, isQuery: bool, i: nat): (r: Result<seq<Prop>>)
    requires node.Obj? && i <= |node.props|
    decreases node, 0, |node.props| - i
    ensures r.Err? ==> InjectionError(r.error)
    ensures r.Ok? ==> Keys(r.value) == Keys(node.props[i..])
  {
    if i == |node.props| then Ok([])
    else
      var p := node.props[i];
      assert p in node.props;
      var v :- RewriteValue(env, p.key, p.value, isQuery);
      Then([Prop(p.key, v)], InjectProps(env, node, isQuery, i + 1))
  }

  /** One turn of the `Object.keys` loop, seen from the loop's start: the first error wins, a value joins the prefix. */
  lemma InjectPropsStep(env: Env, node: Json, isQuery: bool, i: nat, done: seq<Prop>, v: Result<Json>)
    requires node.Obj? && i < |node.props|
    requires InjectProps(env, node, isQuery, 0) == Then(done, InjectProps(env, node, isQuery, i))
    requires v == RewriteValue(env, node.props[i].key, node.props[i].value, isQuery)
    ensures v.Err? ==> InjectProps(env, node, isQuery, 0) == Err(v.error)
    ensures v.Ok? ==>
      InjectProps(env, node, isQuery, 0) ==
        Then(done + [Prop(node.props[i].key, v.value)], InjectProps(env, node, isQuery, i + 1))
  {
    if v.Ok? {
      ThenThen(done, [Prop(node.props[i].key, v.value)], InjectProps(env, node, isQuery, i + 1));
    }
  }

  // ---------------------------------------------------------------------
  // The request (parseUrl)
  // ---------------------------------------------------------------------

  /** `%context_query%` may be `true` or the (non-empty) name of the time field. */
  predicate ValidLegacy(v: Json) {
    v == Bool(true) || (v.Str? && v.s != "")
  }

  /** The deprecation notice: the legacy key should become `%context%: true` plus this time field. */
  datatype Warning = LegacySyntax(timefield: Option<string>)

  /** The url after parsing, the warning emitted, and the error thrown, if any. */
  datatype Parsed = Parsed(url: seq<Prop>, warning: Option<Warning>, error: Option<ParseError>)

  /** A body as far as its rewrite got, and the error that stopped it. */
  datatype Rewritten = Rewritten(body: seq<Prop>, error: Option<ParseError>)

  /** JavaScript's conversion of a value to a property name (`{[timefield]: ...}`). */
  function PropertyName(show: real -> string, j: Json): string
    decreases j, 1
  {
    match j
    case Null => "null"
    case Bool(b) => if b then "true" else "false"
    case Num(n) => show(n)
    case Str(s) => s
    case Arr(_) => JoinedNames(show, j, 0)
    case Obj(_) => "[object Object]"
  }

  /** `Array.prototype.join(",")` from element k on; null elements print as nothing. */
  function JoinedNames(show: real -> string, node: Json, k: nat): string
    requires node.Arr? && k <= |node.items|
    decreases node, 0, |node.items| - k
  {
    if k == |node.items| then ""
    else
      var first := if node.items[k] == Null then "" else PropertyName(show, node.items[k]);
      if k + 1 == |node.items| then first else first + "," + JoinedNames(show, node, k + 1)
  }

  /** `{range: {[timefield]: _createRangeFilter({"%timefilter%": true})}}`. */
  function RangeQuery(env: Env, timefield: Json): Json {
    var opts := [Prop(TimeFilter, Bool(true))];
    assert opts[1..] == [];
    assert Get(opts, "shift") == None;
    var range := RangeFilter(env, opts);
    Obj([Prop("range", Obj([Prop(PropertyName(env.showNumber, timefield), Obj(range.value))]))])
  }

  /** The list at `query.bool.must`, when there is one. */
  function MustList(query: Json): Option<seq<Json>> {
    match Member(query, "bool")
    case None => None
    case Some(b) =>
      match Member(b, "must")
      case Some(Arr(clauses)) => Some(clauses)
      case _ => None
  }

  /**
   * `newQuery.bool.must.push(item)` on a copy of the query; None where
   * JavaScript throws a TypeError because there is no must list to push to.
   */
  function PushMust(query: Json, item: Json): (r: Option<Json>)
    ensures r.Some? <==> MustList(query).Some?
  {
    match Member(query, "bool")
    case None => None
    case Some(b) =>
      match Member(b, "must")
      case Some(Arr(clauses)) => Some(Obj(Set(query.props, "bool", Obj(Set(b.props, "must", Arr(clauses + [item]))))))
      case _ => None
  }

  /** The push appends item to the must list and changes nothing else, keys and their order included. */
  lemma PushMustAppends(query: Json, item: Json)
    requires MustList(query).Some?
    ensures var r := PushMust(query, item).value;
      && MustList(r) == Some(MustList(query).value + [item])
      && r.Obj? && Keys(r.props) == Keys(query.props)
      && (forall k :: k != "bool" ==> Member(r, k) == Member(query, k))
      && (forall k :: k != "must" ==> Member(Member(r, "bool").value, k) == Member(Member(query, "bool").value, k))
  {
    var b := Member(query, "bool").value;
    var b' := Obj(Set(b.props, "must", Arr(MustList(query).value + [item])));
    assert PushMust(query, item) == Some(Obj(Set(query.props, "bool", b')));
    GetKeys(query.props, "bool");
    SetKeys(query.props, "bool", b');
  }

  predicate IsTruthy(v: Option<Json>) {
    v.Some? && Truthy(v.value)
  }

  /** The query that `%context%` and `%timefield%` ask for when body.query is absent. */
  function ContextQuery(env: Env, body: seq<Prop>, context: Option<Json>, timefield: Option<Json>): (r: Rewritten)
    ensures r.error.Some? ==> r.error == Some(MustNotPushable)
    ensures forall k :: k != "query" ==> Get(r.body, k) == Get(body, k)
  {
    var body1 := if IsTruthy(timefield) then Set(body, "query", RangeQuery(env, timefield.value)) else body;
    if !IsTruthy(context) then Rewritten(body1, None)
    else if IsTruthy(timefield) && Member(env.filters, "type") != Some(Str("unsupported")) then
      (match PushMust(env.filters, RangeQuery(env, timefield.value))
       case None => Rewritten(body1, Some(MustNotPushable))
       case Some(query) => Rewritten(Set(body1, "query", query), None))
    else Rewritten(Set(body1, "query", env.filters), None)
  }

  /** The final, unconditional rewrite of body.aggs outside query context. */
  function RewriteAggs(env: Env, body: seq<Prop>): (r: Rewritten)
    ensures r.error.Some? ==> InjectionError(r.error.value)
    ensures forall k :: k != "aggs" ==> Get(r.body, k) == Get(body, k)
    ensures Get(body, "aggs").Some? ==>
      match Inject(env, Get(body, "aggs").value, false)
      case Ok(aggs) => r.error.None? && Get(r.body, "aggs") == Some(aggs)
      case Err(e) => r.error == Some(e) && r.body == body
  {
    match Get(body, "aggs")
    case None => Rewritten(body, None)
    case Some(aggs) =>
      match Inject(env, aggs, false)
      case Err(e) => Rewritten(body, Some(e))
      case Ok(aggs') => Rewritten(Set(body, "aggs", aggs'), None)
  }

  /** Everything parseUrl does to the body once the url keys are settled. */
  function RewriteBody(env: Env, body: seq<Prop>, usesContext: bool, context: Option<Json>, timefield: Option<Json>): (r: Rewritten)
    ensures r.error == Some(QueryWithContext) <==> usesContext && Get(body, "query").Some?
    ensures r.error.Some? ==>
      r.error.value == QueryWithContext || r.error.value == MustNotPushable || InjectionError(r.error.value)
    ensures forall k :: k != "query" && k != "aggs" ==> Get(r.body, k) == Get(body, k)
  {
    match Get(body, "query")
    case Some(query) =>
      if usesContext then Rewritten(body, Some(QueryWithContext))
      else
        (match Inject(env, query, true)
         case Err(e) => Rewritten(body, Some(e))
         case Ok(query') => RewriteAggs(env, Set(body, "query", query')))
    case None =>
      if usesContext then
        var c := ContextQuery(env, body, context, timefield);
        if c.error.Some? then c else RewriteAggs(env, c.body)
      else RewriteAggs(env, body)
  }

  function Finish(url: seq<Prop>, warning: Option<Warning>, rw: Rewritten): (p: Parsed)
    ensures Get(p.url, "body") == Some(Obj(rw.body))
    ensures forall k :: k != "body" ==> Get(p.url, k) == Get(url, k)
    ensures p.warning == warning && p.error == rw.error
  {
    Parsed(Set(url, "body", Obj(rw.body)), warning, rw.error)
  }

  /** The keys parseUrl touches are pairwise different. */
  lemma UrlKeysDistinct()
    ensures Context != TimeField && Context != LegacyContext && TimeField != LegacyContext
    ensures "body" != Context && "body" != TimeField && "body" != LegacyContext
    ensures "query" != "aggs"
  {
  }

  /** `url.body` is absent or an object: the only bodies parseUrl accepts. */
  predicate BodyIsObject(url: seq<Prop>) {
    Get(url, "body").None? || Get(url, "body").value.Obj?
  }

  /** The properties of the body parseUrl works on (an absent body is `{}`). */
  function BodyOf(url: seq<Prop>): seq<Prop>
    requires BodyIsObject(url)
  {
    if Get(url, "body").None? then [] else Get(url, "body").value.props
  }

  predicate HasQuery(url: seq<Prop>)
    requires BodyIsObject(url)
  {
    Get(BodyOf(url), "query").Some?
  }

  /** The modern keys are present (with any value, even a falsy one). */
  predicate UsesModernKeys(url: seq<Prop>) {
    Get(url, Context).Some? || Get(url, TimeField).Some?
  }

  /** `delete url[CONTEXT]; delete url[TIMEFIELD]`, done before anything is checked. */
  function StripModern(url: seq<Prop>): (r: seq<Prop>)
    ensures Get(r, Context).None? && Get(r, TimeField).None?
    ensures forall k :: k != Context && k != TimeField ==> Get(r, k) == Get(url, k)
  {
    Delete(Delete(url, Context), TimeField)
  }

  /** The url once every context key is removed and a missing body is set to `{}`. */
  function SettledUrl(url: seq<Prop>): (r: seq<Prop>)
    requires BodyIsObject(url)
    ensures Get(r, Context).None? && Get(r, TimeField).None? && Get(r, LegacyContext).None?
    ensures Get(r, "body") == Some(Obj(BodyOf(url)))
    ensures forall k :: k != Context && k != TimeField && k != LegacyContext && k != "body" ==> Get(r, k) == Get(url, k)
  {
    var url2 := StripModern(url);
    var url3 := if Get(url, "body").None? then Set(url2, "body", Obj([])) else url2;
    Delete(url3, LegacyContext)
  }

  /**
   * What parseUrl decides before it touches the body: a rejection with the
   * url as left at the throw, or the settled url, the warning and the
   * arguments of the body rewrite.
   */
  datatype Plan =
    | Reject(url: seq<Prop>, error: ParseError)
    | Rewrite(url: seq<Prop>, warning: Option<Warning>, body: seq<Prop>,
              usesContext: bool, context: Option<Json>, timefield: Option<Json>)

  /**
   * The checks on `%context_query%`, in parseUrl's order, and its
   * migration into `%context%: true` and, when it names a field,
   * `%timefield%`, with the deprecation warning. The arguments are the
   * settled url, the body and what was read from the original url.
   */
  function Migration(url: seq<Prop>, body: seq<Prop>, legacy: Option<Json>,
                     usesContext: bool, context: Option<Json>, timefield: Option<Json>): (r: Plan)
    ensures r.url == url
  {
    match legacy
    case None => Rewrite(url, None, body, usesContext, context, timefield)
    case Some(v) =>
      if Get(body, "query").Some? then Reject(url, LegacyWithBodyQuery)
      else if usesContext then Reject(url, LegacyWithContext)
      else if !ValidLegacy(v) then Reject(url, LegacyValueInvalid)
      else Rewrite(url, Some(LegacySyntax(if v.Str? then Some(v.s) else None)), body, true,
                   Some(Bool(true)), if v.Str? then legacy else timefield)
  }

  /** The key handling and validation of parseUrl, in parseUrl's order. */
  function Settle(url: seq<Prop>): Plan {
    if !BodyIsObject(url) then Reject(StripModern(url), BodyNotObject)
    else Migration(SettledUrl(url), BodyOf(url), Get(url, LegacyContext),
                   UsesModernKeys(url), Get(url, Context), Get(url, TimeField))
  }

  /** `parseUrl(dataObject, url)`: the url it leaves behind, the warning and the error. */
  function ParseUrl(env: Env, url: seq<Prop>): Parsed {
    match Settle(url)
    case Reject(url', e) => Parsed(url', None, Some(e))
    case Rewrite(url', warning, body, usesContext, context, timefield) =>
      Finish(url', warning, RewriteBody(env, body, usesContext, context, timefield))
  }
}
