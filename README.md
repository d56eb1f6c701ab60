# Vega query parsing and value-suggestion bodies, in Dafny

This project models two pieces of OpenSearch Dashboards that build
OpenSearch request bodies, and proves properties of them.

The first is `OpenSearchQueryParser` of the Vega visualisation, which rewrites the
`data.url` object of a Vega spec before it is sent to OpenSearch. `parseUrl`
handles four things:

- the url's magic keys: the legacy `%context_query%`, and the modern
  `%context%` and `%timefield%`;
- validation of the body;
- the query that the context keys ask for, which is built from the
  dashboard's filters and the time picker's range;
- a recursive walk (`_injectContextVars`) of `body.query` and `body.aggs`.

The walk expands the dashboard-context clause tokens inside arrays. It
rounds `"interval": {"%autointerval%": …}` to a date-histogram interval
(`_roundInterval`). It replaces `{"%timefilter%": "min" | "max" | true}`
with a shifted time bound (`_getTimeBound`) or a range filter
(`_createRangeFilter`).

The second is `getBody` of the value-suggestion route. It builds the terms
aggregation that asks OpenSearch for the values of a field that start with
what the user has typed. The typed text is escaped for OpenSearch's regular
expressions. A nested field wraps the aggregation in a `nested` aggregation.

Files:

- `json_value.dfy` (`JsonValue`) defines JSON values. Objects are ordered
  property lists: a read takes the first property with the key, a write
  keeps an existing key's place or appends a new one, and a delete removes
  the key. JavaScript truthiness is modelled too.
- `round_interval.dfy` (`IntervalRounding`) holds `_roundInterval` and its
  table form.
- `context_vars.dfy` (`ContextVars`) holds everything the parser computes,
  as functions: the time bounds, range filters, the recursive rewrite and
  `parseUrl`.
- `query_parser.dfy` (`QueryParser`) holds the parser as a class. Its
  methods do the same work step by step: the array loop with its
  hand-advanced position and in-place splice, the `Object.keys` loop, and
  the key-by-key updates of the `url` object. Each method is proved equal
  to the function that specifies it.
- `inject_properties.dfy` (`InjectProperties`) and
  `parse_url_properties.dfy` (`ParseUrlProperties`) hold what the rewrite
  and `parseUrl` promise.
- `value_suggestions.dfy` (`ValueSuggestions`) holds `getBody`:
  - the escaping, and its inverse;
  - a matcher for the regular-expression subset the `include` pattern uses;
  - the layout of the request body.

The parser's collaborators are parameters (the `Env` value):

- the time cache, reduced to its two bounds in epoch milliseconds, either of
  which may be unset;
- the dashboard filter;
- moment's ISO-8601 formatting;
- JavaScript's number-to-string conversion.

The warning callback is a log field of the parser class.

The guard at opensearch_query_parser.ts:294 tests `typeof obj`, not
`typeof subObj`. The model follows the code. This changes nothing
observable: a truthy scalar that gets past the guard has neither token
key, so it reaches the recursive call, which leaves it alone.

Where the code and its description differ, the model follows the code.
When `url.body` is present but is not an object, the error is thrown
before `%context_query%` is read and deleted, so the url keeps that key.

## Model

| member | source | states |
|---|---|---|
| IntervalRounding.RoundIntervalFollowsLadder | src/plugins/vis_type_vega/public/data_model/opensearch_query_parser.ts:439-474 | The switch returns, for every width, the label of the first rung of the threshold table that admits it. Every bound is inclusive except the last (`< 3628800000`), and widths past all rungs get `1y`. |
| IntervalRounding.RoundIntervalMonotone | src/plugins/vis_type_vega/public/data_model/opensearch_query_parser.ts:439-474 | A wider interval never yields an earlier label in the ladder. |
| IntervalRounding.RoundInterval | src/plugins/vis_type_vega/public/data_model/opensearch_query_parser.ts:439-474 | The threshold switch itself. Its meaning is proved by `RoundIntervalFollowsLadder` and `RoundIntervalMonotone`. |
| ContextVars.UnitMillisFollowsTable | src/plugins/vis_type_vega/public/data_model/opensearch_query_parser.ts:396-427 | The unit switch agrees with the table of unit names. A falsy unit means days. An unknown unit is refused. |
| ContextVars.UnitMillis | src/plugins/vis_type_vega/public/data_model/opensearch_query_parser.ts:396-427 | The unit switch, with a falsy unit read as days. Its agreement with the unit table is proved by `UnitMillisFollowsTable`. |
| ContextVars.TimeBound | src/plugins/vis_type_vega/public/data_model/opensearch_query_parser.ts:379-432 | `_getTimeBound` fails exactly when the shift is truthy and either not a number or paired with an unknown unit. The only errors are "shift must be numeric" and "unknown unit". |
| ContextVars.TimeBoundErrors | src/plugins/vis_type_vega/public/data_model/opensearch_query_parser.ts:383-427 | Each of the two errors happens exactly under its own condition: the shift type is checked before the unit. |
| InjectProperties.ShiftedBound | src/plugins/vis_type_vega/public/data_model/opensearch_query_parser.ts:379-432 | An unset bound counts as 0. A falsy shift (0 included) leaves the bound alone whatever the unit. A non-zero numeric shift adds shift × unit milliseconds, or fails on an unknown unit. |
| InjectProperties.ShiftedBy | src/plugins/vis_type_vega/public/data_model/opensearch_query_parser.ts:395-428 | With a known unit and a non-zero shift, the bound is base + shift × the unit's milliseconds. |
| ContextVars.RangeFilter | src/plugins/vis_type_vega/public/data_model/opensearch_query_parser.ts:361-369 | `_createRangeFilter` fails exactly when the lower bound fails, with that bound's error. |
| ContextVars.RangeFilterBounds | src/plugins/vis_type_vega/public/data_model/opensearch_query_parser.ts:361-363 | When both bounds are computed, the filter holds their ISO strings as `gte` and `lte`. |
| ContextVars.RangeFilterFormat | src/plugins/vis_type_vega/public/data_model/opensearch_query_parser.ts:364-367 | The filter carries `format: strict_date_optional_time`. It has no `%timefilter%`, `shift` or `unit`. |
| ContextVars.RangeFilterKeeps | src/plugins/vis_type_vega/public/data_model/opensearch_query_parser.ts:361-369 | Every other property of the object is kept unchanged. |
| ContextVars.SetBounds | src/plugins/vis_type_vega/public/data_model/opensearch_query_parser.ts:362-364 | The three assignments leave `gte`, `lte` and `format` holding the given strings. |
| ContextVars.SetBoundsKeeps | src/plugins/vis_type_vega/public/data_model/opensearch_query_parser.ts:362-364 | The three assignments leave every other key alone. |
| ContextVars.StripRangeOptions | src/plugins/vis_type_vega/public/data_model/opensearch_query_parser.ts:365-367 | After the three deletes, `%timefilter%`, `shift` and `unit` are absent. |
| ContextVars.StripKeeps | src/plugins/vis_type_vega/public/data_model/opensearch_query_parser.ts:365-367 | The deletes leave every other key alone. |
| ContextVars.Inject | src/plugins/vis_type_vega/public/data_model/opensearch_query_parser.ts:252-354 | The rewrite raises only the four token errors. On success arrays stay arrays, objects keep exactly their keys in order, and scalars are unchanged. |
| ContextVars.InjectItems | src/plugins/vis_type_vega/public/data_model/opensearch_query_parser.ts:256-290 | The array loop raises only token errors. Outside query context it yields one element per input element. |
| ContextVars.InjectProps | src/plugins/vis_type_vega/public/data_model/opensearch_query_parser.ts:292-351 | The `Object.keys` loop raises only token errors. It keeps the object's keys in order. |
| ContextVars.ExpandItem | src/plugins/vis_type_vega/public/data_model/opensearch_query_parser.ts:258-289 | Every element other than a clause token in query context is replaced by exactly one element. Only token errors arise. |
| ContextVars.RewriteValue | src/plugins/vis_type_vega/public/data_model/opensearch_query_parser.ts:293-350 | A falsy property value is left as it is. Only token errors arise. |
| ContextVars.TimeFilterValue | src/plugins/vis_type_vega/public/data_model/opensearch_query_parser.ts:324-350 | A `%timefilter%` value other than `"min"`, `"max"` or `true` is rejected, and no other value is. |
| InjectProperties.ArrayRewriteSplits | src/plugins/vis_type_vega/public/data_model/opensearch_query_parser.ts:256-290 | The array loop is compositional: rewriting `a + b` is rewriting `a` and then `b`. The first error wins. |
| InjectProperties.ClauseTokenSpliced | src/plugins/vis_type_vega/public/data_model/opensearch_query_parser.ts:258-285 | In query context a clause token is replaced where it stands. An array clause contributes its elements. Another truthy clause contributes itself. An absent or falsy clause contributes nothing. The elements around the token are rewritten as usual. |
| ContextVars.ClauseItems | src/plugins/vis_type_vega/public/data_model/opensearch_query_parser.ts:274-285 | What a clause token becomes: the elements of an array clause, a truthy clause itself, or nothing. Stated by `ClauseTokenSpliced`. |
| InjectProperties.PlainItems | src/plugins/vis_type_vega/public/data_model/opensearch_query_parser.ts:256-290 | Outside query context, output j is the rewrite of element j. The loop fails if and only if some element's rewrite fails. |
| InjectProperties.TokensStayOutsideQuery | src/plugins/vis_type_vega/public/data_model/opensearch_query_parser.ts:258-290 | In `aggs` an array keeps its length, and clause tokens stay as plain strings. |
| InjectProperties.AutoIntervalDefault | src/plugins/vis_type_vega/public/data_model/opensearch_query_parser.ts:298-319 | `%autointerval%: true` rounds (max − min) / 50. |
| InjectProperties.AutoIntervalBuckets | src/plugins/vis_type_vega/public/data_model/opensearch_query_parser.ts:298-319 | A numeric `%autointerval%` n rounds (max − min) / n. With a bound unset the result is `1y`, because the difference is NaN. |
| InjectProperties.AutoIntervalOneDay | src/plugins/vis_type_vega/public/data_model/opensearch_query_parser.ts:298-319 | A one-day range at the default 50 buckets gives `30m`. |
| ContextVars.AutoInterval | src/plugins/vis_type_vega/public/data_model/opensearch_query_parser.ts:316-319 | The bucket width `(max − min) / size` rounded to a label, or `1y` when a bound is unset. Stated by `AutoIntervalDefault` and `AutoIntervalBuckets`. |
| InjectProperties.AutoIntervalOnlyWhenAsked | src/plugins/vis_type_vega/public/data_model/opensearch_query_parser.ts:296-336 | The interval token applies only under the key `interval` and only when truthy. A falsy or absent token, or any other key, falls through to the `%timefilter%` switch: the token object becomes its bound or range filter, and an object without one is walked like any other. |
| InjectProperties.AutoIntervalMustBeNumber | src/plugins/vis_type_vega/public/data_model/opensearch_query_parser.ts:302-315 | A truthy `%autointerval%` that is neither `true` nor a number is an error. |
| InjectProperties.TimeFilterBound | src/plugins/vis_type_vega/public/data_model/opensearch_query_parser.ts:298-329 | `{"%timefilter%": "min"/"max"}` becomes the number of that shifted bound, or the bound's error, under any key. Under `interval` this includes an object whose `%autointerval%` is falsy. |
| InjectProperties.TimeFilterRange | src/plugins/vis_type_vega/public/data_model/opensearch_query_parser.ts:298-333 | `{"%timefilter%": true}` becomes the range filter built from the object itself, or that filter's error. Under `interval` this includes an object whose `%autointerval%` is falsy. |
| ContextVars.PushMust | src/plugins/vis_type_vega/public/data_model/opensearch_query_parser.ts:209-211 | The push succeeds exactly when the copied filter has a `bool.must` list. Otherwise it is the runtime TypeError. |
| ContextVars.PushMustAppends | src/plugins/vis_type_vega/public/data_model/opensearch_query_parser.ts:209-211 | The push appends exactly one item to `bool.must`. Every other key and its order are unchanged, inside `bool` too. |
| ContextVars.ContextQuery | src/plugins/vis_type_vega/public/data_model/opensearch_query_parser.ts:201-214 | The context query changes only `body.query`. Its only error is the failed push. |
| ContextVars.RangeQuery | src/plugins/vis_type_vega/public/data_model/opensearch_query_parser.ts:204 | `{range: {[timefield]: range filter of {"%timefilter%": true}}}`. The query that `ContextQueryShape` places in the body. |
| ContextVars.RewriteAggs | src/plugins/vis_type_vega/public/data_model/opensearch_query_parser.ts:217 | `aggs` is rewritten outside query context. Only `aggs` changes. An error leaves the body as it was. |
| ContextVars.RewriteBody | src/plugins/vis_type_vega/public/data_model/opensearch_query_parser.ts:183-217 | The body rewrite refuses a body query exactly when context keys are used. Its other errors are the failed push and token errors. Every body key other than `query` and `aggs` keeps its value. |
| ContextVars.StripModern | src/plugins/vis_type_vega/public/data_model/opensearch_query_parser.ts:93-96 | `%context%` and `%timefield%` are gone. Every other key of the url is unchanged. |
| ContextVars.SettledUrl | src/plugins/vis_type_vega/public/data_model/opensearch_query_parser.ts:92-112 | All three context keys are gone. `body` is the object body, `{}` when it was absent. Every other key is unchanged. |
| ContextVars.Migration | src/plugins/vis_type_vega/public/data_model/opensearch_query_parser.ts:110-181 | The legacy checks and migration, in `parseUrl`'s order. They leave the url they were given unchanged. Each outcome is stated by `MigrationValidation`. |
| ContextVars.Settle | src/plugins/vis_type_vega/public/data_model/opensearch_query_parser.ts:91-181 | The key handling and validation before the body rewrite. Stated by `SettleValidation` and `SettleKeys`. |
| ContextVars.ParseUrl | src/plugins/vis_type_vega/public/data_model/opensearch_query_parser.ts:91-219 | The url, warning and error `parseUrl` produces. Stated by `ParseUrlValidation`, `ParseUrlWarning`, `ParseUrlSettlesKeys`, `ParseUrlBody` and the two legacy-equivalence lemmas. |
| ParseUrlProperties.MigrationValidation | src/plugins/vis_type_vega/public/data_model/opensearch_query_parser.ts:110-181 | Each legacy-key error happens exactly under its condition, checked in the source's order. A migrated plan keeps the body. A body query next to context keys reaches the rewrite only without a legacy key. |
| ParseUrlProperties.SettleValidation | src/plugins/vis_type_vega/public/data_model/opensearch_query_parser.ts:91-181 | The same conditions, stated on the url: a non-object body first, then the legacy checks. |
| ParseUrlProperties.ParseUrlError | src/plugins/vis_type_vega/public/data_model/opensearch_query_parser.ts:91-219 | A rejection is reported as such. Otherwise the error is the body rewrite's: the query-with-context refusal, the failed push or a token error. |
| ParseUrlProperties.ParseUrlValidation | src/plugins/vis_type_vega/public/data_model/opensearch_query_parser.ts:91-199 | Each of the five validation errors is thrown if and only if its condition holds on the input url. |
| ParseUrlProperties.ParseUrlWarning | src/plugins/vis_type_vega/public/data_model/opensearch_query_parser.ts:159-180 | The deprecation warning is emitted exactly when a valid legacy key is migrated. It names the field when the legacy value is a string. |
| ParseUrlProperties.SettleKeys | src/plugins/vis_type_vega/public/data_model/opensearch_query_parser.ts:92-112 | The url a plan carries has no modern keys. When the body is an object, it has no legacy key and its body is the object. Otherwise the legacy key and body are untouched. No other key changes. |
| ParseUrlProperties.ParseUrlSettlesKeys | src/plugins/vis_type_vega/public/data_model/opensearch_query_parser.ts:91-219 | After `parseUrl`, the url carries neither modern key. Unless the body was rejected, it carries no legacy key and an object body. No other key changes. |
| ParseUrlProperties.ContextQueryShape | src/plugins/vis_type_vega/public/data_model/opensearch_query_parser.ts:201-214 | Without `%context%` the query is the range filter on the time field, or unchanged. With `%context%` and no time field, or an `unsupported` filter, it is the dashboard filter. With both, the query is the dashboard filter after the push, which (by `PushMustAppends`) has the range query appended to `bool.must` and nothing else changed. The push fails exactly when there is no such list. |
| ParseUrlProperties.RewriteBodyParts | src/plugins/vis_type_vega/public/data_model/opensearch_query_parser.ts:183-217 | An explicit query is rewritten in query context. The context keys supply the query when there is none. With neither there is no query. On success `aggs` is its rewrite outside query context. |
| ParseUrlProperties.ParseUrlBody | src/plugins/vis_type_vega/public/data_model/opensearch_query_parser.ts:91-219 | `url.body` ends up as the rewritten body, and the error is the rewrite's. Every key of the original body other than `query` and `aggs` keeps its value. |
| ParseUrlProperties.LegacyMeansContext | src/plugins/vis_type_vega/public/data_model/opensearch_query_parser.ts:159-167 | `%context_query%: "f"` gives the same body and error as `%context%: true, %timefield%: "f"`. Only the legacy form warns. |
| ParseUrlProperties.LegacyTrueMeansContext | src/plugins/vis_type_vega/public/data_model/opensearch_query_parser.ts:159-167 | `%context_query%: true` gives the same body and error as `%context%: true` alone. Only the legacy form warns, with no field named. |
| QueryParser.OpenSearchQueryParser.constructor | src/plugins/vis_type_vega/public/data_model/opensearch_query_parser.ts:75-85 | The parser keeps its collaborators and starts with no warnings. |
| QueryParser.OpenSearchQueryParser.InjectContextVars | src/plugins/vis_type_vega/public/data_model/opensearch_query_parser.ts:252-354 | The recursive walk returns exactly `Inject`. |
| QueryParser.OpenSearchQueryParser.InjectArray | src/plugins/vis_type_vega/public/data_model/opensearch_query_parser.ts:254-290 | The splice loop, with the position advanced past what was inserted, computes exactly `InjectItems`. |
| QueryParser.OpenSearchQueryParser.ExpandElement | src/plugins/vis_type_vega/public/data_model/opensearch_query_parser.ts:258-289 | One element's replacement is exactly `ExpandItem`. |
| QueryParser.OpenSearchQueryParser.InjectObject | src/plugins/vis_type_vega/public/data_model/opensearch_query_parser.ts:291-351 | The `Object.keys` loop, overwriting property after property, computes exactly `InjectProps`. |
| QueryParser.OpenSearchQueryParser.RewriteProperty | src/plugins/vis_type_vega/public/data_model/opensearch_query_parser.ts:293-350 | One property's new value is exactly `RewriteValue`. |
| QueryParser.OpenSearchQueryParser.RewriteBody | src/plugins/vis_type_vega/public/data_model/opensearch_query_parser.ts:183-217 | The in-place body updates compute exactly `ContextVars.RewriteBody`. |
| QueryParser.OpenSearchQueryParser.SettleUrl | src/plugins/vis_type_vega/public/data_model/opensearch_query_parser.ts:91-181 | The key deletions and the body default leave `url` as `Settle` says. The plan returned is `Settle`'s. |
| QueryParser.OpenSearchQueryParser.StripContextKeys | src/plugins/vis_type_vega/public/data_model/opensearch_query_parser.ts:92-97 | It reads `%context%` and `%timefield%` and removes both from the url. |
| QueryParser.OpenSearchQueryParser.ParseUrl | src/plugins/vis_type_vega/public/data_model/opensearch_query_parser.ts:91-219 | `parseUrl` leaves the url, the error and the warning log as `ContextVars.ParseUrl` says. |
| ValueSuggestions.EscapeQuery | src/plugins/data/server/autocomplete/value_suggestions_route.ts:115-116 | Escaping adds exactly one character per special character. |
| ValueSuggestions.EscapeRoundTrip | src/plugins/data/server/autocomplete/value_suggestions_route.ts:115-116 | The escaped text is well escaped, and unescaping it gives back the typed text. |
| ValueSuggestions.UnescapeRoundTrip | src/plugins/data/server/autocomplete/value_suggestions_route.ts:115-116 | Every well-escaped text is the escaping of its unescaping, so escaping is a bijection onto well-escaped texts. |
| ValueSuggestions.IncludeParses | src/plugins/data/server/autocomplete/value_suggestions_route.ts:137 | The `include` pattern reads as the typed characters taken literally, followed by "any characters". |
| ValueSuggestions.LiterallyThenAny | src/plugins/data/server/autocomplete/value_suggestions_route.ts:137 | Literal characters followed by `.*` match exactly the terms that start with those characters. |
| ValueSuggestions.IncludeMatchesPrefix | src/plugins/data/server/autocomplete/value_suggestions_route.ts:114-137 | The `include` pattern matches a term if and only if the typed text is a prefix of it, special characters included. |
| ValueSuggestions.FieldName | src/plugins/data/server/autocomplete/value_suggestions_route.ts:136 | The aggregation reads the field object's `name`, or the field itself when it is not a field object. |
| ValueSuggestions.TermsShape | src/plugins/data/server/autocomplete/value_suggestions_route.ts:135-139 | The terms aggregation has the field, the escaped text plus `.*` as `include`, execution hint `map` and shard size 10. |
| ValueSuggestions.BodyWithKeys | src/plugins/data/server/autocomplete/value_suggestions_route.ts:124-143 | The body's keys are `size`, `timeout`, `terminate_after`, `query`, `aggs`, in literal order. An undefined setting drops out. |
| ValueSuggestions.BodyWithGet | src/plugins/data/server/autocomplete/value_suggestions_route.ts:124-143 | `size` is 0, the two settings are passed through, `query` is the bool filter, `aggs` is the aggregation, and there is nothing else. |
| ValueSuggestions.BodyWithFilter | src/plugins/data/server/autocomplete/value_suggestions_route.ts:128-132 | The caller's filters sit at `query.bool.filter`. |
| ValueSuggestions.BodyWithSetAggs | src/plugins/data/server/autocomplete/value_suggestions_route.ts:146-155 | Spreading the body and giving a new `aggs` keeps every key in its place and replaces only the aggregation. |
| ValueSuggestions.GetBodyLayout | src/plugins/data/server/autocomplete/value_suggestions_route.ts:124-159 | `getBody` returns the flat layout. For a nested field it returns the same layout with the nested wrapper around the same suggestions aggregation. |
| ValueSuggestions.GetBodyTop | src/plugins/data/server/autocomplete/value_suggestions_route.ts:105-159 | Nested or not, the body has the keys in literal order, size 0, the settings passed in, and the filters (`[]` by default) at `query.bool.filter`. |
| ValueSuggestions.SuggestionsTerms | src/plugins/data/server/autocomplete/value_suggestions_route.ts:133-142 | The flat aggregation holds the terms aggregation at `suggestions.terms`. |
| ValueSuggestions.NestedInner | src/plugins/data/server/autocomplete/value_suggestions_route.ts:148-155 | The nested wrapper holds the flat aggregation at `nestedSuggestions.aggs`. |
| ValueSuggestions.GetBodyTerms | src/plugins/data/server/autocomplete/value_suggestions_route.ts:133-159 | The terms aggregation sits at `aggs.suggestions.terms`, or at `aggs.nestedSuggestions.aggs.suggestions.terms` for a nested field. |
| ValueSuggestions.GetBodyNestedPath | src/plugins/data/server/autocomplete/value_suggestions_route.ts:145-151 | The nested aggregation's `path` is the field's nested path, absent when the field has none. |
| ValueSuggestions.GetBody | src/plugins/data/server/autocomplete/value_suggestions_route.ts:105-160 | The request body. Stated by `GetBodyLayout`, `GetBodyTop`, `GetBodyTerms` and `GetBodyNestedPath`. |

## Left out

- `populateData`, the search call and the pairing of responses with requests. This is asynchronous I/O through the search service.
- The route handler of the value-suggestion route: request parsing, index-pattern lookup and the search call. This is the HTTP server and its collaborators.
- Error message texts (i18n). Each thrown error is one constructor of `ParseError`.
- `_getTimeBound` and `_createRangeFilter`: moment's ISO formatting, and JavaScript's number formatting when a non-string time field becomes a property name. Both are function parameters.
- Floating point. Numbers are reals, so NaN and infinities are not values. A missing time bound in `%autointerval%`, which makes the difference NaN, is modelled by its outcome, `1y`.
- `Object.keys` order. JavaScript lists integer-like keys first, in numeric order. The model keeps insertion order for all keys.
- `undefined` is modelled as absence. JSON serialization drops properties whose value is undefined, so `timeout`, `terminate_after` and a missing nested `path` are modelled as absent keys.
- ContextVars.Inject: on an error in the middle of the walk, the source leaves the nodes it already rewrote changed in place. The model reports the error with the body as it was before that walk.
- QueryParser.OpenSearchQueryParser.RewriteBody: reports the error with the body as it was before the failing walk, for the same reason.
- Aliasing. Values in the model never share structure. Parsed JSON does not share either, and the dashboard filter is deep-copied before use.
- ValueSuggestions.GetBody: `query` is always a string. The `''` default for an undefined query is not modelled.
- ValueSuggestions.IncludeMatchesPrefix: only the regular-expression features the pattern uses are modelled. Those are literal and escaped characters, `.` and `*`. OpenSearch's full regular-expression language is not.
