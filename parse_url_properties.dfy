/**
 * What `parseUrl` promises about a Vega `data.url` request: which error it
 * throws for which combination of keys, that the context keys never reach
 * OpenSearch, that the legacy `%context_query%` means exactly
 * `%context%: true` plus `%timefield%`, and what query the context keys
 * ask for.
 */
module ParseUrlProperties {
  import opened JsonValue
  import opened ContextVars

  /**
   * A body that is not an object is rejected first, then the legacy key's
   * checks run in parseUrl's order: a body query, the modern keys, the
   * value itself.
   */
  lemma MigrationValidation(url: seq<Prop>, body: seq<Prop>, legacy: Option<Json>,
                            usesContext: bool, context: Option<Json>, timefield: Option<Json>)
    ensures var plan := Migration(url, body, legacy, usesContext, context, timefield);
      && (plan.Reject? ==> plan.error != BodyNotObject)
      && (plan.Reject? && plan.error == LegacyWithBodyQuery <==> legacy.Some? && Get(body, "query").Some?)
      && (plan.Reject? && plan.error == LegacyWithContext <==>
            legacy.Some? && Get(body, "query").None? && usesContext)
      && (plan.Reject? && plan.error == LegacyValueInvalid <==>
            legacy.Some? && Get(body, "query").None? && !usesContext && !ValidLegacy(legacy.value))
      && (plan.Rewrite? ==> plan.body == body)
      && (plan.Rewrite? && plan.usesContext && Get(body, "query").Some? <==>
            legacy.None? && usesContext && Get(body, "query").Some?)
  {
  }

  /**
   * A body that is not an object is rejected first, then the legacy key's
   * checks run in parseUrl's order: a body query, the modern keys, the
   * value itself. A plan that goes on to the body rewrite carries the
   * modern keys next to a body query only when no legacy key was given.
   */
  lemma SettleValidation(url: seq<Prop>)
    ensures var plan := Settle(url);
      var legacy := Get(url, LegacyContext);
      && (plan.Reject? && plan.error == BodyNotObject <==> !BodyIsObject(url))
      && (plan.Reject? && plan.error == LegacyWithBodyQuery <==> BodyIsObject(url) && legacy.Some? && HasQuery(url))
      && (plan.Reject? && plan.error == LegacyWithContext <==>
            BodyIsObject(url) && legacy.Some? && !HasQuery(url) && UsesModernKeys(url))
      && (plan.Reject? && plan.error == LegacyValueInvalid <==>
            BodyIsObject(url) && legacy.Some? && !HasQuery(url) && !UsesModernKeys(url) && !ValidLegacy(legacy.value))
      && (plan.Rewrite? && plan.usesContext && Get(plan.body, "query").Some? <==>
            BodyIsObject(url) && legacy.None? && HasQuery(url) && UsesModernKeys(url))
  {
    if BodyIsObject(url) {
      MigrationValidation(SettledUrl(url), BodyOf(url), Get(url, LegacyContext), UsesModernKeys(url), Get(url, Context), Get(url, TimeField));
    }
  }

  /**
   * parseUrl's error is the plan's rejection, or else what the body rewrite
   * raises: a body query next to the modern keys, the failed push onto
   * `bool.must`, or an error of the recursive rewrite.
   */
  lemma ParseUrlError(env: Env, url: seq<Prop>)
    ensures var plan := Settle(url);
      var e := ParseUrl(env, url).error;
      && (plan.Reject? ==> e == Some(plan.error))
      && (plan.Rewrite? ==> (e == Some(QueryWithContext) <==> plan.usesContext && Get(plan.body, "query").Some?))
      && (plan.Rewrite? && e.Some? ==>
            e.value == QueryWithContext || e.value == MustNotPushable || InjectionError(e.value))
  {
    var plan := Settle(url);
    if plan.Rewrite? {
      var rw := RewriteBody(env, plan.body, plan.usesContext, plan.context, plan.timefield);
      assert ParseUrl(env, url) == Finish(plan.url, plan.warning, rw);
    } else {
      assert ParseUrl(env, url) == Parsed(plan.url, None, Some(plan.error));
    }
  }

  /**
   * The validation errors, each exactly when parseUrl throws it: a body
   * that is not an object first, then the legacy key's checks in order;
   * a body query next to `%context%` or `%timefield%` is refused when no
   * legacy key is given.
   */
  lemma ParseUrlValidation(env: Env, url: seq<Prop>)
    ensures var e := ParseUrl(env, url).error;
      var legacy := Get(url, LegacyContext);
      && (e == Some(BodyNotObject) <==> !BodyIsObject(url))
      && (e == Some(LegacyWithBodyQuery) <==> BodyIsObject(url) && legacy.Some? && HasQuery(url))
      && (e == Some(LegacyWithContext) <==>
            BodyIsObject(url) && legacy.Some? && !HasQuery(url) && UsesModernKeys(url))
      && (e == Some(LegacyValueInvalid) <==>
            BodyIsObject(url) && legacy.Some? && !HasQuery(url) && !UsesModernKeys(url) && !ValidLegacy(legacy.value))
      && (e == Some(QueryWithContext) <==>
            BodyIsObject(url) && legacy.None? && HasQuery(url) && UsesModernKeys(url))
  {
    SettleValidation(url);
    ParseUrlError(env, url);
    var plan := Settle(url);
    ErrorOfPlan(plan, ParseUrl(env, url).error, plan.Rewrite? && plan.usesContext && Get(plan.body, "query").Some?);
  }

  /** How the plan's rejection and the body rewrite's error combine into one error. */
  lemma ErrorOfPlan(plan: Plan, e: Option<ParseError>, refused: bool)
    requires plan.Reject? ==> e == Some(plan.error) && !refused
    requires plan.Rewrite? ==> (e == Some(QueryWithContext) <==> refused)
    requires plan.Rewrite? && e.Some? ==>
      e.value == QueryWithContext || e.value == MustNotPushable || InjectionError(e.value)
    ensures forall x :: x == BodyNotObject || x == LegacyWithBodyQuery || x == LegacyWithContext || x == LegacyValueInvalid ==>
      (e == Some(x) <==> plan.Reject? && plan.error == x)
    ensures e == Some(QueryWithContext) <==> refused || (plan.Reject? && plan.error == QueryWithContext)
  {
  }

  /** The deprecation warning is emitted exactly when a valid legacy key is migrated. */
  lemma ParseUrlWarning(env: Env, url: seq<Prop>)
    ensures var p := ParseUrl(env, url);
      var legacy := Get(url, LegacyContext);
      && (p.warning.Some? <==>
            BodyIsObject(url) && legacy.Some? && !HasQuery(url) && !UsesModernKeys(url) && ValidLegacy(legacy.value))
      && (p.warning.Some? ==> p.warning.value.timefield == if legacy.value.Str? then Some(legacy.value.s) else None)
  {
  }

  /** The url a plan carries has no context key left, and nothing else changed but the body. */
  lemma SettleKeys(url: seq<Prop>)
    ensures var u := Settle(url).url;
      && Get(u, Context).None? && Get(u, TimeField).None?
      && (BodyIsObject(url) ==> Get(u, LegacyContext).None? && Get(u, "body") == Some(Obj(BodyOf(url))))
      && (!BodyIsObject(url) ==> Get(u, LegacyContext) == Get(url, LegacyContext) && Get(u, "body") == Get(url, "body"))
      && (forall k :: k != Context && k != TimeField && k != LegacyContext && k != "body" ==> Get(u, k) == Get(url, k))
  {
    UrlKeysDistinct();
    if BodyIsObject(url) {
      assert Settle(url).url == SettledUrl(url);
    } else {
      assert Settle(url).url == StripModern(url);
    }
  }

  /**
   * After parseUrl the url carries neither `%context%` nor `%timefield%`;
   * unless the body was rejected it carries no `%context_query%` either and
   * its body is an object. No other key of the url changes.
   */
  lemma ParseUrlSettlesKeys(env: Env, url: seq<Prop>)
    ensures var p := ParseUrl(env, url);
      && Get(p.url, Context).None? && Get(p.url, TimeField).None?
      && (BodyIsObject(url) ==>
            Get(p.url, LegacyContext).None? && Get(p.url, "body").Some? && Get(p.url, "body").value.Obj?)
      && (!BodyIsObject(url) ==> Get(p.url, LegacyContext) == Get(url, LegacyContext) && Get(p.url, "body") == Get(url, "body"))
      && (forall k :: k != Context && k != TimeField && k != LegacyContext && k != "body" ==> Get(p.url, k) == Get(url, k))
  {
    UrlKeysDistinct();
    SettleKeys(url);
    var plan := Settle(url);
    if plan.Rewrite? {
      var rw := RewriteBody(env, plan.body, plan.usesContext, plan.context, plan.timefield);
      assert ParseUrl(env, url) == Finish(plan.url, plan.warning, rw);
    }
  }

  /**
   * The query the context keys ask for when body.query is absent: the
   * range filter on the time field alone without `%context%`, the
   * dashboard filters with `%context%`, and with both the range filter
   * pushed onto the filters' `bool.must`, which fails when there is no
   * such list. No other key of the body changes.
   */
  lemma ContextQueryShape(env: Env, body: seq<Prop>, context: Option<Json>, timefield: Option<Json>)
    ensures var r := ContextQuery(env, body, context, timefield);
      var q := Get(r.body, "query");
      && (!IsTruthy(context) ==>
            r.error.None? && q == if IsTruthy(timefield) then Some(RangeQuery(env, timefield.value)) else Get(body, "query"))
      && (IsTruthy(context) && (!IsTruthy(timefield) || Member(env.filters, "type") == Some(Str("unsupported"))) ==>
            r.error.None? && q == Some(env.filters))
      && (IsTruthy(context) && IsTruthy(timefield) && Member(env.filters, "type") != Some(Str("unsupported")) ==>
            (r.error == Some(MustNotPushable) <==> MustList(env.filters).None?)
            && (r.error.None? ==>
                  q == Some(PushMust(env.filters, RangeQuery(env, timefield.value)).value)
                  && MustList(q.value) == Some(MustList(env.filters).value + [RangeQuery(env, timefield.value)])))
  {
    if IsTruthy(context) && IsTruthy(timefield) && Member(env.filters, "type") != Some(Str("unsupported"))
       && MustList(env.filters).Some? {
      PushMustAppends(env.filters, RangeQuery(env, timefield.value));
    }
  }

  /**
   * How the body is rewritten once the url keys are settled: an explicit
   * query is rewritten in query context, the context keys put their query
   * in its place, no query and no context keys leave the body without one;
   * aggs are rewritten outside query context.
   */
  lemma RewriteBodyParts(env: Env, body: seq<Prop>, usesContext: bool, context: Option<Json>, timefield: Option<Json>)
    ensures var r := RewriteBody(env, body, usesContext, context, timefield);
      && (Get(body, "query").Some? && !usesContext ==>
            match Inject(env, Get(body, "query").value, true)
            case Ok(q) => Get(r.body, "query") == Some(q)
            case Err(e) => r.error == Some(e))
      && (Get(body, "query").None? && usesContext ==>
            var c := ContextQuery(env, body, context, timefield);
            r.error == Some(MustNotPushable) <==> c.error.Some?)
      && (Get(body, "query").None? && usesContext && r.error.None? ==>
            Get(r.body, "query") == Get(ContextQuery(env, body, context, timefield).body, "query"))
      && (Get(body, "query").None? && !usesContext ==> Get(r.body, "query").None?)
      && (r.error.None? && Get(body, "aggs").Some? ==>
            Inject(env, Get(body, "aggs").value, false).Ok?
            && Get(r.body, "aggs") == Some(Inject(env, Get(body, "aggs").value, false).value))
      && (r.error.None? && Get(body, "aggs").None? ==> Get(r.body, "aggs").None?)
  {
    UrlKeysDistinct();
  }

  /**
   * parseUrl leaves in the url the body the rewrite produced, and reports
   * the rewrite's error; every body key other than `query` and `aggs`
   * keeps the value it had in the url's body.
   */
  lemma ParseUrlBody(env: Env, url: seq<Prop>)
    ensures var plan := Settle(url);
      plan.Rewrite? ==>
        var rw := RewriteBody(env, plan.body, plan.usesContext, plan.context, plan.timefield);
        && Get(ParseUrl(env, url).url, "body") == Some(Obj(rw.body)) && ParseUrl(env, url).error == rw.error
        && BodyIsObject(url)
        && (forall k :: k != "query" && k != "aggs" ==> Get(rw.body, k) == Get(BodyOf(url), k))
  {
    if BodyIsObject(url) {
      MigrationValidation(SettledUrl(url), BodyOf(url), Get(url, LegacyContext), UsesModernKeys(url), Get(url, Context), Get(url, TimeField));
    }
  }

  /**
   * `%context_query%: "f"` means `%context%: true` with `%timefield%: "f"`:
   * the same body and the same error, with the deprecation warning only
   * for the legacy form.
   */
  lemma LegacyMeansContext(env: Env, url: seq<Prop>, field: string)
    requires BodyIsObject(url) && Get(url, LegacyContext) == Some(Str(field)) && field != ""
    requires !HasQuery(url) && !UsesModernKeys(url)
    ensures var p := ParseUrl(env, url);
      var p' := ParseUrl(env, ModernForm(url, field));
      && Get(p.url, "body") == Get(p'.url, "body")
      && p.error == p'.error
      && p.warning == Some(LegacySyntax(Some(field))) && p'.warning.None?
  {
    var modern := ModernForm(url, field);
    ModernFormKeys(url, field);
    assert BodyOf(modern) == BodyOf(url);
  }

  /**
   * `%context_query%: true` means `%context%: true` alone: the same body
   * and the same error, with a deprecation warning that names no field
   * only for the legacy form.
   */
  lemma LegacyTrueMeansContext(env: Env, url: seq<Prop>)
    requires BodyIsObject(url) && Get(url, LegacyContext) == Some(Bool(true))
    requires !HasQuery(url) && !UsesModernKeys(url)
    ensures var p := ParseUrl(env, url);
      var p' := ParseUrl(env, ContextOnly(url));
      && Get(p.url, "body") == Get(p'.url, "body")
      && p.error == p'.error
      && p.warning == Some(LegacySyntax(None)) && p'.warning.None?
  {
    var modern := ContextOnly(url);
    ContextOnlyKeys(url);
    assert BodyOf(modern) == BodyOf(url);
  }

  /** The url with `%context_query%: true` replaced by its modern equivalent. */
  function ContextOnly(url: seq<Prop>): seq<Prop> {
    Set(Delete(url, LegacyContext), Context, Bool(true))
  }

  lemma ContextOnlyKeys(url: seq<Prop>)
    ensures var modern := ContextOnly(url);
      && Get(modern, "body") == Get(url, "body")
      && Get(modern, LegacyContext).None?
      && Get(modern, Context) == Some(Bool(true)) && Get(modern, TimeField) == Get(url, TimeField)
  {
    UrlKeysDistinct();
  }

  /** The url with `%context_query%: field` replaced by its modern equivalent. */
  function ModernForm(url: seq<Prop>, field: string): seq<Prop> {
    Set(Set(Delete(url, LegacyContext), Context, Bool(true)), TimeField, Str(field))
  }

  lemma ModernFormKeys(url: seq<Prop>, field: string)
    ensures var modern := ModernForm(url, field);
      && Get(modern, "body") == Get(url, "body")
      && Get(modern, LegacyContext).None?
      && Get(modern, Context) == Some(Bool(true)) && Get(modern, TimeField) == Some(Str(field))
  {
    UrlKeysDistinct();
  }
}
