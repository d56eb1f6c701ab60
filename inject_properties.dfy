/**
 * What the recursive rewrite `_injectContextVars` promises: arrays are
 * rewritten element by element from left to right, the first error wins,
 * a dashboard-context token in query context is replaced in place by the
 * ambient clause, outside query context the tokens are left alone, and the
 * interval and time-filter objects become the values they stand for.
 */
module InjectProperties {
  import opened JsonValue
  import opened IntervalRounding
  import opened ContextVars

  /** The rewrite of a list of array elements, from the first one on. */
  function Items(env: Env, xs: seq<Json>, isQuery: bool): Result<seq<Json>> {
    InjectItems(env, Arr(xs), isQuery, 0)
  }

  /** Two rewritten lists, one after the other; the first error wins. */
  function Join(a: Result<seq<Json>>, b: Result<seq<Json>>): Result<seq<Json>> {
    match a
    case Err(e) => Err(e)
    case Ok(xs) => Then(xs, b)
  }

  lemma ThenJoin(h: seq<Json>, x: Result<seq<Json>>, y: Result<seq<Json>>)
    ensures Then(h, Join(x, y)) == Join(Then(h, x), y)
  {
    if x.Ok? {
      ThenThen(h, x.value, y);
    }
  }

  /** The loop from position |p| + j of p + s is the loop from position j of s. */
  lemma {:induction false} ItemsShift(env: Env, p: seq<Json>, s: seq<Json>, isQuery: bool, j: nat)
    requires j <= |s|
    ensures InjectItems(env, Arr(p + s), isQuery, |p| + j) == InjectItems(env, Arr(s), isQuery, j)
    decreases |s| - j
  {
    if j < |s| {
      assert (p + s)[|p| + j] == s[j];
      ItemsShift(env, p, s, isQuery, j + 1);
    }
  }

  lemma {:induction false} ItemsFrom(env: Env, a: seq<Json>, b: seq<Json>, isQuery: bool, k: nat)
    requires k <= |a|
    ensures InjectItems(env, Arr(a + b), isQuery, k) == Join(InjectItems(env, Arr(a), isQuery, k), Items(env, b, isQuery))
    decreases |a| - k
  {
    if k == |a| {
      ItemsShift(env, a, b, isQuery, 0);
      ThenNil(Items(env, b, isQuery));
    } else {
      assert (a + b)[k] == a[k];
      ItemsFrom(env, a, b, isQuery, k + 1);
      var head := ExpandItem(env, a[k], isQuery);
      if head.Ok? {
        ThenJoin(head.value, InjectItems(env, Arr(a), isQuery, k + 1), Items(env, b, isQuery));
      }
    }
  }

  /** An array splits anywhere: each part is rewritten on its own and the results are concatenated. */
  lemma ArrayRewriteSplits(env: Env, a: seq<Json>, b: seq<Json>, isQuery: bool)
    ensures Items(env, a + b, isQuery) == Join(Items(env, a, isQuery), Items(env, b, isQuery))
  {
    ItemsFrom(env, a, b, isQuery, 0);
  }

  /**
   * In query context a clause token is replaced, where it stands, by the
   * elements of the ambient clause when that is an array, by the clause
   * itself when it is another truthy value, and by nothing when it is
   * absent or falsy; the elements around it are rewritten as usual.
   */
  lemma ClauseTokenSpliced(env: Env, pre: seq<Json>, token: Json, post: seq<Json>, pre': seq<Json>, post': seq<Json>)
    requires ClauseTag(token).Some?
    requires Items(env, pre, true) == Ok(pre') && Items(env, post, true) == Ok(post')
    ensures var r := Inject(env, Arr(pre + [token] + post), true);
      var c := Clause(env.filters, ClauseTag(token).value);
      && (c.Some? && c.value.Arr? ==> r == Ok(Arr(pre' + c.value.items + post')))
      && (c.Some? && Truthy(c.value) && !c.value.Arr? ==> r == Ok(Arr(pre' + [c.value] + post')))
      && (c.None? || !Truthy(c.value) ==> r == Ok(Arr(pre' + post')))
  {
    var spliced := ClauseItems(env.filters, ClauseTag(token).value);
    ArrayRewriteSplits(env, pre + [token], post, true);
    ArrayRewriteSplits(env, pre, [token], true);
    assert [token][0] == token;
    assert ExpandItem(env, token, true) == Ok(spliced);
    assert InjectItems(env, Arr([token]), true, 1) == Ok([]);
    assert Items(env, [token], true) == Ok(spliced + []);
    assert spliced + [] == spliced;
    assert Items(env, pre + [token], true) == Ok(pre' + spliced);
    assert Items(env, pre + [token] + post, true) == Ok(pre' + spliced + post');
    if spliced == [] {
      assert pre' + spliced + post' == pre' + post';
    }
  }

  /** Outside query context the loop keeps one output per element. */
  lemma {:induction false} PlainItems(env: Env, node: Json, k: nat)
    requires node.Arr? && k <= |node.items|
    decreases |node.items| - k
    ensures var r := InjectItems(env, node, false, k);
      && (r.Ok? ==> forall j :: k <= j < |node.items| ==> Inject(env, node.items[j], false) == Ok(r.value[j - k]))
      && (r.Err? <==> exists j :: k <= j < |node.items| && Inject(env, node.items[j], false).Err?)
  {
    if k < |node.items| {
      PlainItems(env, node, k + 1);
      var r := InjectItems(env, node, false, k);
      var head := ExpandItem(env, node.items[k], false);
      if head.Ok? {
        assert head.value == [Inject(env, node.items[k], false).value];
      }
    }
  }

  /**
   * Outside query context (the aggregations) an array is rewritten element
   * by element; a clause token is an ordinary string there and stays put.
   */
  lemma TokensStayOutsideQuery(env: Env, items: seq<Json>)
    ensures var r := Inject(env, Arr(items), false);
      && (r.Err? <==> exists j :: 0 <= j < |items| && Inject(env, items[j], false).Err?)
      && (r.Ok? ==> |r.value.items| == |items|)
      && (r.Ok? ==> forall j :: 0 <= j < |items| ==> Inject(env, items[j], false) == Ok(r.value.items[j]))
      && (r.Ok? ==> forall j :: 0 <= j < |items| && ClauseTag(items[j]).Some? ==> r.value.items[j] == items[j])
  {
    PlainItems(env, Arr(items), 0);
  }

  /** `"interval": {"%autointerval%": true}` aims at 50 buckets over the time range. */
  lemma AutoIntervalDefault(env: Env, sub: Json, isQuery: bool, lo: int, hi: int)
    requires Member(sub, AutoIntervalKey) == Some(Bool(true))
    requires env.bounds == TimeBounds(Some(lo), Some(hi))
    ensures RewriteValue(env, "interval", sub, isQuery) == Ok(Str(RoundInterval((hi - lo) as real / 50.0)))
  {
  }

  /** A numeric `%autointerval%` is the bucket count; without both bounds the label is the top one. */
  lemma AutoIntervalBuckets(env: Env, sub: Json, isQuery: bool, n: real)
    requires Member(sub, AutoIntervalKey) == Some(Num(n)) && n != 0.0
    ensures env.bounds.min.Some? && env.bounds.max.Some? ==>
      RewriteValue(env, "interval", sub, isQuery) ==
        Ok(Str(RoundInterval((env.bounds.max.value - env.bounds.min.value) as real / n)))
    ensures env.bounds.min.None? || env.bounds.max.None? ==>
      RewriteValue(env, "interval", sub, isQuery) == Ok(Str(Top))
  {
  }

  /** A day-long range at the default 50 buckets rounds to half-hour buckets. */
  lemma AutoIntervalOneDay(env: Env, sub: Json)
    requires Member(sub, AutoIntervalKey) == Some(Bool(true))
    requires env.bounds == TimeBounds(Some(0), Some(86400000))
    ensures RewriteValue(env, "interval", sub, true) == Ok(Str("30m"))
  {
  }

  /**
   * The interval token is honoured only under the key "interval" and only
   * when truthy; otherwise the object goes on to the time-filter check,
   * and without a time-filter token it is walked like any other.
   */
  lemma AutoIntervalOnlyWhenAsked(env: Env, key: string, sub: Json, isQuery: bool)
    requires sub.Obj?
    requires key != "interval" || !IsTruthy(Member(sub, AutoIntervalKey))
    ensures RewriteValue(env, key, sub, isQuery) ==
      match Member(sub, TimeFilter)
      case None => Inject(env, sub, isQuery)
      case Some(t) => TimeFilterValue(env, sub, t)
  {
  }

  /** Any other truthy interval token is an error. */
  lemma AutoIntervalMustBeNumber(env: Env, sub: Json, isQuery: bool)
    requires Member(sub, AutoIntervalKey).Some?
    requires Truthy(Member(sub, AutoIntervalKey).value)
    ensures RewriteValue(env, "interval", sub, isQuery) == Err(AutoIntervalNotNumber)
      <==> Member(sub, AutoIntervalKey).value != Bool(true) && !Member(sub, AutoIntervalKey).value.Num?
  {
  }

  /**
   * A bound is the time picker's (0 when unset) moved by `shift` units; a
   * falsy shift, zero included, moves nothing, whatever the unit says.
   */
  lemma ShiftedBound(bounds: TimeBounds, opts: Json, side: Side)
    ensures var r := TimeBound(bounds, opts, side);
      var shift := Member(opts, "shift");
      var base := BoundOrZero(bounds, side) as real;
      && (shift.None? || !Truthy(shift.value) ==> r == Ok(base))
      && (shift.Some? && shift.value.Num? && shift.value.n != 0.0 ==>
            match UnitMillis(Member(opts, "unit"))
            case Some(ms) => r == Ok(base + shift.value.n * ms)
            case None => r == Err(UnknownUnit))
  {
  }

  /** `{"%timefilter%": "min"}` and `{"%timefilter%": "max"}` become the number of the shifted bound. */
  lemma TimeFilterBound(env: Env, key: string, sub: Json, isQuery: bool, side: Side)
    requires sub.Obj? && Member(sub, TimeFilter) == Some(Str(if side == Min then "min" else "max"))
    requires key != "interval" || !IsTruthy(Member(sub, AutoIntervalKey))
    ensures RewriteValue(env, key, sub, isQuery) ==
      match TimeBound(env.bounds, sub, side)
      case Ok(t) => Ok(Num(t))
      case Err(e) => Err(e)
  {
    assert RewriteValue(env, key, sub, isQuery) == TimeFilterValue(env, sub, Member(sub, TimeFilter).value);
  }

  /** A known unit and a non-zero numeric shift move a bound by shift times the unit. */
  lemma ShiftedBy(bounds: TimeBounds, opts: Json, side: Side, n: real, ms: real)
    requires Member(opts, "shift") == Some(Num(n)) && n != 0.0
    requires UnitMillis(Member(opts, "unit")) == Some(ms)
    ensures TimeBound(bounds, opts, side) == Ok(BoundOrZero(bounds, side) as real + n * ms)
  {
  }

  /** `{"%timefilter%": true}` becomes the range filter built from the object itself, or its error. */
  lemma TimeFilterRange(env: Env, key: string, sub: Json, isQuery: bool)
    requires sub.Obj? && Member(sub, TimeFilter) == Some(Bool(true))
    requires key != "interval" || !IsTruthy(Member(sub, AutoIntervalKey))
    ensures RewriteValue(env, key, sub, isQuery) ==
      match RangeFilter(env, sub.props)
      case Ok(range) => Ok(Obj(range))
      case Err(e) => Err(e)
  {
    assert RewriteValue(env, key, sub, isQuery) == TimeFilterValue(env, sub, Bool(true));
  }
}
