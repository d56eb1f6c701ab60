/**
 * `OpenSearchQueryParser` from the Vega data model: the object that holds
 * the time bounds, the dashboard filter and the warning sink, and rewrites
 * each `data.url` request step by step. Each method is proved to do exactly
 * what the functions of ContextVars describe.
 */
module QueryParser {
  import opened JsonValue
  import opened ContextVars

  /** The `url` object of one Vega data request; parseUrl updates it in place. */
  class UrlObject {
    var props: seq<Prop>

    constructor (props: seq<Prop>)
      ensures this.props == props
    {
      this.props := props;
    }
  }

  class OpenSearchQueryParser {
    /** The time cache, the ambient filter and the formatters: never written after construction. */
    const env: Env
    /** Everything passed to the warning sink, oldest first. */
    var warnings: seq<Warning>

    constructor (bounds: TimeBounds, filters: Json, toIso: real -> string, showNumber: real -> string)
      ensures env.bounds == bounds && env.filters == filters
      ensures env.toIso == toIso && env.showNumber == showNumber
      ensures warnings == []
    {
      env := Env(bounds, filters, toIso, showNumber);
      warnings := [];
    }

    /** `_injectContextVars(node, isQuery)`: arrays and objects are rewritten, other values left alone. */
    method InjectContextVars(node: Json, isQuery: bool) returns (r: Result<Json>)
      ensures r == Inject(env, node, isQuery)
      decreases node, 1
    {
      match node
      case Arr(_) =>
        var items := InjectArray(node, isQuery);
        if items.Err? {
          return Err(items.error);
        }
        r := Ok(Arr(items.value));
      case Obj(_) =>
        var props := InjectObject(node, isQuery);
        if props.Err? {
          return Err(props.error);
        }
        r := Ok(Obj(props.value));
      case _ =>
        r := Ok(node);
    }

    /**
     * The array loop: a clause token is spliced out in place and replaced by
     * the ambient clause, with the position advanced by hand past what was
     * inserted; every other element is rewritten recursively.
     */
    method InjectArray(node: Json, isQuery: bool) returns (r: Result<seq<Json>>)
      requires node.Arr?
      ensures r == InjectItems(env, node, isQuery, 0)
      decreases node, 0
    {
      var items := node.items;
      var cur := items;
      var pos := 0;
      ghost var k := 0;
      ThenNil(InjectItems(env, node, isQuery, 0));
      while pos < |cur|
        invariant 0 <= k <= |items| && 0 <= pos <= |cur|
        invariant cur[pos..] == items[k..]
        invariant InjectItems(env, node, isQuery, 0) == Then(cur[..pos], InjectItems(env, node, isQuery, k))
        decreases |items| - k
      {
        assert cur[pos] == items[k];
        var head := ExpandElement(cur[pos], isQuery);
        if head.Err? {
          return Err(head.error);
        }
        ghost var done := cur[..pos];
        // the element gives way to its replacement; scanning resumes after it
        cur := cur[..pos] + head.value + cur[pos + 1..];
        pos := pos + |head.value|;
        assert cur[..pos] == done + head.value;
        assert cur[pos..] == items[k + 1..];
        ThenThen(done, head.value, InjectItems(env, node, isQuery, k + 1));
        k := k + 1;
      }
      assert cur[..pos] + [] == cur;
      r := Ok(cur);
    }

    /**
     * What one array element is replaced with: a clause token in query
     * context by the ambient clause's values, the clause itself, or
     * nothing; any other element by its own rewrite.
     */
    method ExpandElement(item: Json, isQuery: bool) returns (r: Result<seq<Json>>)
      ensures r == ExpandItem(env, item, isQuery)
      decreases item, 2
    {
      var tag := ClauseTag(item);
      if isQuery && tag.Some? {
        // a copy of the ambient filter: it is a value, so nothing here can change it
        var clause := Clause(env.filters, tag.value);
        if clause.Some? && Truthy(clause.value) {
          if clause.value.Arr? {
            r := Ok(clause.value.items);
          } else {
            r := Ok([clause.value]);
          }
        } else {
          // the token is removed
          r := Ok([]);
        }
      } else {
        var sub := InjectContextVars(item, isQuery);
        if sub.Err? {
          return Err(sub.error);
        }
        r := Ok([sub.value]);
      }
    }

    /** The `Object.keys` loop: each property's value is replaced by its rewrite, in key order. */
    method InjectObject(node: Json, isQuery: bool) returns (r: Result<seq<Prop>>)
      requires node.Obj?
      ensures r == InjectProps(env, node, isQuery, 0)
      decreases node, 0
    {
      var props := node.props;
      var cur := props;
      ThenNil(InjectProps(env, node, isQuery, 0));
      for i := 0 to |props|
        invariant |cur| == |props| && cur[i..] == props[i..]
        invariant InjectProps(env, node, isQuery, 0) == Then(cur[..i], InjectProps(env, node, isQuery, i))
      {
        var key, sub := cur[i].key, cur[i].value;
        assert cur[i] == props[i] && props[i] in props;
        ghost var done := cur[..i];
        var value := RewriteProperty(key, sub, isQuery);
        InjectPropsStep(env, node, isQuery, i, done, value);
        if value.Err? {
          return Err(value.error);
        }
        UpdatePrefix(cur, props, i, Prop(key, value.value));
        cur := cur[i := Prop(key, value.value)];
      }
      assert cur[..|props|] + [] == cur;
      r := Ok(cur);
    }

    /** Overwriting element i of a list that agrees with `orig` from i on extends the done prefix by one. */
    static lemma UpdatePrefix<T>(cur: seq<T>, orig: seq<T>, i: nat, x: T)
      requires |cur| == |orig| && i < |cur| && cur[i..] == orig[i..]
      ensures var c := cur[i := x];
        |c| == |orig| && c[..i + 1] == cur[..i] + [x] && c[i + 1..] == orig[i + 1..]
    {
      var c := cur[i := x];
      assert c[..i + 1] == cur[..i] + [x];
      assert c[i + 1..] == cur[i + 1..];
      assert cur[i + 1..] == cur[i..][1..];
    }

    /**
     * One step of the `Object.keys` loop: falsy values are skipped,
     * `"interval": {"%autointerval%": size}` becomes a rounded interval, a
     * `%timefilter%` object becomes a bound or a range filter, and anything
     * else is rewritten recursively.
     */
    method RewriteProperty(key: string, sub: Json, isQuery: bool) returns (r: Result<Json>)
      ensures r == RewriteValue(env, key, sub, isQuery)
      decreases sub, 2
    {
      if !Truthy(sub) {
        return Ok(sub);
      }
      var size := Member(sub, AutoIntervalKey);
      if key == "interval" && size.Some? && Truthy(size.value) {
        var width: real;
        if size.value == Bool(true) {
          width := 50.0; // by default, aim at about 80 buckets
        } else if !size.value.Num? {
          return Err(AutoIntervalNotNumber);
        } else {
          width := size.value.n;
        }
        return Ok(Str(AutoInterval(env.bounds, width)));
      }
      var token := Member(sub, TimeFilter);
      if token.None? {
        r := InjectContextVars(sub, isQuery);
      } else {
        r := TimeFilterValue(env, sub, token.value);
      }
    }

    /**
     * The part of `parseUrl` that rewrites the body (`url.body` and `body`
     * are one object): the query asked for by the context keys, or the
     * given query with its tokens expanded, then the aggregations.
     */
    method RewriteBody(body: seq<Prop>, usesContext: bool, context: Option<Json>, timefield: Option<Json>)
      returns (rw: Rewritten)
      ensures rw == ContextVars.RewriteBody(env, body, usesContext, context, timefield)
    {
      var bodyProps := body;
      var query := Get(bodyProps, "query");
      if query.Some? {
        if usesContext {
          return Rewritten(bodyProps, Some(QueryWithContext));
        }
        var rewritten := InjectContextVars(query.value, true);
        if rewritten.Err? {
          return Rewritten(bodyProps, Some(rewritten.error));
        }
        bodyProps := Set(bodyProps, "query", rewritten.value);
      } else if usesContext {
        if IsTruthy(timefield) {
          // inject a range filter built from the time filter's bounds
          bodyProps := Set(bodyProps, "query", RangeQuery(env, timefield.value));
        }
        if IsTruthy(context) {
          // use the dashboard context
          var newQuery := env.filters;
          if IsTruthy(timefield) && Member(newQuery, "type") != Some(Str("unsupported")) {
            var pushed := PushMust(newQuery, Get(bodyProps, "query").value);
            if pushed.None? {
              return Rewritten(bodyProps, Some(MustNotPushable));
            }
            newQuery := pushed.value;
          }
          bodyProps := Set(bodyProps, "query", newQuery);
        }
      }

      var aggs := Get(bodyProps, "aggs");
      if aggs.Some? {
        var rewritten := InjectContextVars(aggs.value, false);
        if rewritten.Err? {
          return Rewritten(bodyProps, Some(rewritten.error));
        }
        bodyProps := Set(bodyProps, "aggs", rewritten.value);
      }
      return Rewritten(bodyProps, None);
    }

    /**
     * The first half of `parseUrl(dataObject, url)`: removes the context
     * keys from `url`, gives it an empty body when it has none, and checks
     * the legacy key. Returns the rejection, or how the body is to be
     * rewritten; `url` is left as it is at that point.
     */
    method SettleUrl(url: UrlObject) returns (plan: Plan)
      modifies url
      ensures plan == Settle(old(url.props)) && url.props == plan.url
    {
      ghost var u0 := url.props;
      UrlKeysDistinct();
      var body := Get(url.props, "body");
      var context, timefield := StripContextKeys(url);
      var usesContext := context.Some? || timefield.Some?;
      assert usesContext == UsesModernKeys(u0);

      if body.None? {
        url.props := Set(url.props, "body", Obj([]));
        body := Some(Obj([]));
      } else if !body.value.Obj? {
        return Reject(url.props, BodyNotObject);
      }
      assert body.value.props == BodyOf(u0);

      // migrate the legacy %context_query% into context and timefield values
      var legacy := Get(url.props, LegacyContext);
      url.props := Delete(url.props, LegacyContext);
      assert url.props == SettledUrl(u0);
      assert legacy == Get(u0, LegacyContext);
      plan := Migration(url.props, body.value.props, legacy, usesContext, context, timefield);
    }

    /** Reads `%context%` and `%timefield%` and removes both from `url`. */
    method StripContextKeys(url: UrlObject) returns (context: Option<Json>, timefield: Option<Json>)
      modifies url
      ensures url.props == StripModern(old(url.props))
      ensures context == Get(old(url.props), Context) && timefield == Get(old(url.props), TimeField)
    {
      UrlKeysDistinct();
      context := Get(url.props, Context);
      url.props := Delete(url.props, Context);
      timefield := Get(url.props, TimeField);
      url.props := Delete(url.props, TimeField);
    }

    /**
     * `parseUrl(dataObject, url)`: settles the context keys of `url`, then
     * rewrites `url.body`. Returns the error it throws, if any; on an error
     * `url` holds what had been done before the failing step.
     */
    method ParseUrl(url: UrlObject) returns (error: Option<ParseError>)
      modifies this, url
      ensures var p := ContextVars.ParseUrl(env, old(url.props));
        && url.props == p.url
        && error == p.error
        && warnings == old(warnings) + (if p.warning.Some? then [p.warning.value] else [])
    {
      var plan := SettleUrl(url);
      if plan.Reject? {
        return Some(plan.error);
      }
      if plan.warning.Some? {
        warnings := warnings + [plan.warning.value];
      }
      var rw := RewriteBody(plan.body, plan.usesContext, plan.context, plan.timefield);
      url.props := Set(url.props, "body", Obj(rw.body));
      error := rw.error;
    }
  }
}
