/**
 * `getBody` of the value-suggestion route: the terms aggregation that asks
 * OpenSearch for the values of one field starting with what the user has
 * typed. The typed text is escaped for OpenSearch's regular expressions
 * and followed by `.*`; a nested field wraps the aggregation in a
 * `nested` aggregation.
 */
module ValueSuggestions {
  import opened JsonValue

  /** The characters the escaping prefixes with a backslash: the reserved characters of OpenSearch regular expressions. */
  const Special: set<char> := {'.', '?', '+', '*', '|', '{', '}', '[', ']', '(', ')', '"', '\\', '#', '@', '&', '<', '>', '~'}

  /** How many characters of q are special. */
  function SpecialCount(q: string): nat {
    if q == [] then 0 else (if q[0] in Special then 1 else 0) + SpecialCount(q[1..])
  }

  /** `getEscapedQuery(q)`: a backslash before every special character, every other character unchanged. */
  function EscapeQuery(q: string): (r: string)
    ensures |r| == |q| + SpecialCount(q)
  {
    if q == [] then []
    else (if q[0] in Special then ['\\', q[0]] else [q[0]]) + EscapeQuery(q[1..])
  }

  // ---------------------------------------------------------------------
  // Escaped text, and the way back
  // ---------------------------------------------------------------------

  /** A string made only of escaped special characters and plain other characters. */
  predicate WellEscaped(s: string)
    decreases |s|
  {
    if s == [] then true
    else if s[0] == '\\' then |s| >= 2 && s[1] in Special && WellEscaped(s[2..])
    else s[0] !in Special && WellEscaped(s[1..])
  }

  /** Drops the backslash of every escape pair. */
  function Unescape(s: string): string
    decreases |s|
  {
    if s == [] then []
    else if s[0] == '\\' && |s| >= 2 then [s[1]] + Unescape(s[2..])
    else [s[0]] + Unescape(s[1..])
  }

  /** The escaped text is well formed and the original text comes back from it. */
  lemma {:induction false} EscapeRoundTrip(q: string)
    ensures WellEscaped(EscapeQuery(q))
    ensures Unescape(EscapeQuery(q)) == q
  {
    if q != [] {
      EscapeRoundTrip(q[1..]);
      var rest := EscapeQuery(q[1..]);
      if q[0] in Special {
        var r := ['\\', q[0]] + rest;
        assert r[2..] == rest;
        assert EscapeQuery(q) == r;
      } else {
        var r := [q[0]] + rest;
        assert r[1..] == rest;
        assert EscapeQuery(q) == r;
      }
    }
  }

  /** Every well-formed escaped string is the escaping of exactly one text. */
  lemma {:induction false} UnescapeRoundTrip(s: string)
    requires WellEscaped(s)
    ensures EscapeQuery(Unescape(s)) == s
    decreases |s|
  {
    if s != [] {
      if s[0] == '\\' {
        UnescapeRoundTrip(s[2..]);
        var q := [s[1]] + Unescape(s[2..]);
        assert q[1..] == Unescape(s[2..]);
        assert s == ['\\', s[1]] + s[2..];
      } else {
        UnescapeRoundTrip(s[1..]);
        var q := [s[0]] + Unescape(s[1..]);
        assert q[1..] == Unescape(s[1..]);
        assert s == [s[0]] + s[1..];
      }
    }
  }

  // ---------------------------------------------------------------------
  // What the include pattern matches
  // ---------------------------------------------------------------------

  /** The part of OpenSearch's regular expressions the pattern uses: literal characters, `.`, and `*` after an atom. */
  datatype Atom = Lit(c: char) | AnyChar
  datatype Piece = Once(atom: Atom) | Repeated(atom: Atom)

  predicate Fits(a: Atom, c: char) {
    a.AnyChar? || a.c == c
  }

  /** Reads one atom off the front of a pattern: an escape pair, `.`, or a non-special character. */
  function ParseAtom(p: string): Option<(Atom, string)>
    requires p != []
  {
    if p[0] == '\\' then (if |p| >= 2 then Some((Lit(p[1]), p[2..])) else None)
    else if p[0] == '.' then Some((AnyChar, p[1..]))
    else if p[0] in Special then None
    else Some((Lit(p[0]), p[1..]))
  }

  /** A pattern as a list of pieces, or None when it uses anything beyond that part of the syntax. */
  function ParsePattern(p: string): Option<seq<Piece>>
    decreases |p|
  {
    if p == [] then Some([])
    else match ParseAtom(p)
      case None => None
      case Some((a, rest)) =>
        if rest != [] && rest[0] == '*' then
          match ParsePattern(rest[1..])
          case None => None
          case Some(ps) => Some([Repeated(a)] + ps)
        else
          match ParsePattern(rest)
          case None => None
          case Some(ps) => Some([Once(a)] + ps)
  }

  /** Whether the pieces match the whole term. */
  predicate Matches(ps: seq<Piece>, t: string)
    decreases |ps|, |t|
  {
    if ps == [] then t == []
    else match ps[0]
      case Once(a) => t != [] && Fits(a, t[0]) && Matches(ps[1..], t[1..])
      case Repeated(a) => Matches(ps[1..], t) || (t != [] && Fits(a, t[0]) && Matches(ps, t[1..]))
  }

  /** The text as a run of literal pieces. */
  function Literally(q: string): (ps: seq<Piece>)
    ensures |ps| == |q|
  {
    if q == [] then [] else [Once(Lit(q[0]))] + Literally(q[1..])
  }

  /** The escaped text followed by `.*` parses as the text's characters, literally, then any suffix. */
  lemma {:induction false} IncludeParses(q: string)
    ensures ParsePattern(EscapeQuery(q) + ".*") == Some(Literally(q) + [Repeated(AnyChar)])
  {
    var p := EscapeQuery(q) + ".*";
    if q == [] {
      assert p == ".*";
      assert p[1..] == "*";
      assert ParseAtom(p) == Some((AnyChar, "*"));
      assert "*"[1..] == [];
      assert Literally(q) + [Repeated(AnyChar)] == [Repeated(AnyChar)] + [];
    } else {
      IncludeParses(q[1..]);
      var tail := EscapeQuery(q[1..]) + ".*";
      assert tail != [] && tail[0] != '*' by {
        if q[1..] == [] {
          assert tail == ".*";
        } else {
          assert tail[0] == EscapeQuery(q[1..])[0];
        }
      }
      if q[0] in Special {
        assert p == ['\\', q[0]] + tail;
        assert p[2..] == tail;
        assert ParseAtom(p) == Some((Lit(q[0]), tail));
      } else {
        assert p == [q[0]] + tail;
        assert p[1..] == tail;
        assert ParseAtom(p) == Some((Lit(q[0]), tail));
      }
      assert Literally(q) + [Repeated(AnyChar)] == [Once(Lit(q[0]))] + (Literally(q[1..]) + [Repeated(AnyChar)]);
    }
  }

  /** A trailing `.*` matches every remaining text. */
  lemma {:induction false} AnySuffix(t: string)
    ensures Matches([Repeated(AnyChar)], t)
    decreases |t|
  {
    if t != [] {
      AnySuffix(t[1..]);
    }
  }

  /** The text's characters, literally, then any suffix: exactly the terms that start with the text. */
  lemma {:induction false} LiterallyThenAny(q: string, t: string)
    ensures Matches(Literally(q) + [Repeated(AnyChar)], t) <==> q <= t
  {
    var ps := Literally(q) + [Repeated(AnyChar)];
    if q == [] {
      assert ps == [Repeated(AnyChar)];
      AnySuffix(t);
    } else {
      assert ps[0] == Once(Lit(q[0]));
      assert ps[1..] == Literally(q[1..]) + [Repeated(AnyChar)];
      if t != [] {
        LiterallyThenAny(q[1..], t[1..]);
        assert q <= t <==> q[0] == t[0] && q[1..] <= t[1..];
      }
    }
  }

  /** The include pattern suggests exactly the field values that start with the typed text, special characters included. */
  lemma IncludeMatchesPrefix(q: string, term: string)
    ensures ParsePattern(EscapeQuery(q) + ".*").Some?
    ensures Matches(ParsePattern(EscapeQuery(q) + ".*").value, term) <==> q <= term
  {
    IncludeParses(q);
    LiterallyThenAny(q, term);
  }

  // ---------------------------------------------------------------------
  // The request body
  // ---------------------------------------------------------------------

  /** `isFieldObject(f)`: f is truthy and has a truthy `name`. */
  predicate IsFieldObject(f: Json) {
    Truthy(f) && Member(f, "name").Some? && Truthy(Member(f, "name").value)
  }

  /** The field the terms aggregation reads. */
  function FieldName(f: Json): (r: Json)
    ensures IsFieldObject(f) ==> Some(r) == Member(f, "name")
    ensures !IsFieldObject(f) ==> r == f
  {
    if IsFieldObject(f) then Member(f, "name").value else f
  }

  /** `field.subType.nested` when the field object has one, truthy. */
  function NestedInfo(f: Json): Option<Json> {
    if !IsFieldObject(f) then None
    else match Member(f, "subType")
      case Some(sub) =>
        if !Truthy(sub) then None
        else (match Member(sub, "nested")
              case Some(n) => if Truthy(n) then Some(n) else None
              case None => None)
      case None => None
  }

  /** A property whose value may be `undefined`: JSON leaves it out. */
  function Optional(key: string, v: Option<Json>): seq<Prop> {
    match v
    case Some(x) => [Prop(key, x)]
    case None => []
  }

  lemma GetOptional(key: string, v: Option<Json>, rest: seq<Prop>, k: string)
    ensures Get(Optional(key, v) + rest, k) == if k == key && v.Some? then v else Get(rest, k)
    ensures Keys(Optional(key, v) + rest) == (if v.Some? then [key] else []) + Keys(rest)
  {
    var o := Optional(key, v) + rest;
    if v.Some? {
      assert o[0] == Prop(key, v.value) && o[1..] == rest;
    } else {
      assert o == rest;
    }
  }

  lemma GetFront(p: Prop, rest: seq<Prop>, k: string)
    ensures Get([p] + rest, k) == if k == p.key then Some(p.value) else Get(rest, k)
    ensures Keys([p] + rest) == [p.key] + Keys(rest)
  {
    assert ([p] + rest)[1..] == rest;
  }

  /** `aggs.suggestions.terms` of the flat body. */
  function Terms(field: Json, query: string): Json {
    Obj([Prop("field", FieldName(field)),
         Prop("include", Str(EscapeQuery(query) + ".*")),
         Prop("execution_hint", Str("map")),
         Prop("shard_size", Num(10.0))])
  }

  /** The flat body's `aggs`. */
  function SuggestionsAggs(field: Json, query: string): Json {
    Obj([Prop("suggestions", Obj([Prop("terms", Terms(field, query))]))])
  }

  /** The nested body's `aggs`: a nested aggregation on the field's path around the flat one. */
  function NestedAggs(nested: Json, inner: Json): Json {
    Obj([Prop("nestedSuggestions", Obj([
      Prop("nested", Obj(Optional("path", Member(nested, "path")))),
      Prop("aggs", inner)]))])
  }

  /** The body's layout around a given `aggs`. */
  function BodyWith(timeout: Option<Json>, terminateAfter: Option<Json>, filter: seq<Json>, aggs: Json): seq<Prop> {
    [Prop("size", Num(0.0))]
      + (Optional("timeout", timeout)
      + (Optional("terminate_after", terminateAfter)
      + [Prop("query", Obj([Prop("bool", Obj([Prop("filter", Arr(filter))]))])), Prop("aggs", aggs)]))
  }

  /** The body built before the nested check. */
  function FlatBody(timeout: Option<Json>, terminateAfter: Option<Json>, field: Json, query: string,
                    boolFilter: Option<seq<Json>>): seq<Prop> {
    BodyWith(timeout, terminateAfter, Filters(boolFilter), SuggestionsAggs(field, query))
  }

  /** `boolFilter` defaults to no filters. */
  function Filters(boolFilter: Option<seq<Json>>): seq<Json> {
    match boolFilter case Some(fs) => fs case None => []
  }

  /**
   * `getBody({timeout, terminate_after}, field, query, boolFilter)`: the flat
   * body, or for a nested field the same body with its `aggs` replaced by
   * the `nestedSuggestions` wrapper (the spread keeps the key's place).
   */
  function GetBody(timeout: Option<Json>, terminateAfter: Option<Json>, field: Json, query: string,
                   boolFilter: Option<seq<Json>>): seq<Prop>
  {
    var body := FlatBody(timeout, terminateAfter, field, query, boolFilter);
    match NestedInfo(field)
    case Some(nested) => Set(body, "aggs", NestedAggs(nested, SuggestionsAggs(field, query)))
    case None => body
  }

  /** Where the terms aggregation sits: under the nested wrapper for a nested field. */
  function TermsPath(field: Json): seq<string> {
    if NestedInfo(field).Some? then ["aggs", "nestedSuggestions", "aggs", "suggestions", "terms"]
    else ["aggs", "suggestions", "terms"]
  }

  /** The top-level keys of the body, in order; `timeout` and `terminate_after` only when given. */
  function BodyKeys(timeout: Option<Json>, terminateAfter: Option<Json>): seq<string> {
    ["size"] + (if timeout.Some? then ["timeout"] else [])
      + (if terminateAfter.Some? then ["terminate_after"] else []) + ["query", "aggs"]
  }

  /** The top-level keys of the body come in the order the object literal writes them. */
  lemma BodyWithKeys(timeout: Option<Json>, terminateAfter: Option<Json>, filter: seq<Json>, aggs: Json)
    ensures Keys(BodyWith(timeout, terminateAfter, filter, aggs)) == BodyKeys(timeout, terminateAfter)
  {
    var query := Obj([Prop("bool", Obj([Prop("filter", Arr(filter))]))]);
    var tail := [Prop("query", query), Prop("aggs", aggs)];
    var t2 := Optional("terminate_after", terminateAfter) + tail;
    var t1 := Optional("timeout", timeout) + t2;
    var o1: seq<string> := if timeout.Some? then ["timeout"] else [];
    var o2: seq<string> := if terminateAfter.Some? then ["terminate_after"] else [];
    assert Keys(tail) == ["query", "aggs"] by {
      assert tail[1..] == [Prop("aggs", aggs)] && tail[1..][1..] == [];
    }
    KeysAppend(Optional("terminate_after", terminateAfter), tail);
    KeysAppend(Optional("timeout", timeout), t2);
    assert Keys(Optional("terminate_after", terminateAfter)) == o2;
    assert Keys(Optional("timeout", timeout)) == o1;
    assert ([Prop("size", Num(0.0))] + t1)[1..] == t1;
    assert ["size"] + (o1 + (o2 + ["query", "aggs"])) == ["size"] + o1 + o2 + ["query", "aggs"];
  }

  /**
   * Every top-level read of the body: `size` is 0, `timeout` and
   * `terminate_after` are the settings passed in (absent when undefined),
   * `aggs` is the given aggregation, and there is nothing else.
   */
  lemma BodyWithGet(timeout: Option<Json>, terminateAfter: Option<Json>, filter: seq<Json>, aggs: Json, k: string)
    ensures Get(BodyWith(timeout, terminateAfter, filter, aggs), k) ==
      if k == "size" then Some(Num(0.0))
      else if k == "timeout" then timeout
      else if k == "terminate_after" then terminateAfter
      else if k == "query" then Some(Obj([Prop("bool", Obj([Prop("filter", Arr(filter))]))]))
      else if k == "aggs" then Some(aggs)
      else None
  {
    var query := Obj([Prop("bool", Obj([Prop("filter", Arr(filter))]))]);
    var last := [Prop("aggs", aggs)];
    var tail := [Prop("query", query)] + last;
    var t2 := Optional("terminate_after", terminateAfter) + tail;
    var t1 := Optional("timeout", timeout) + t2;
    var b := [Prop("size", Num(0.0))] + t1;
    assert b == BodyWith(timeout, terminateAfter, filter, aggs);
    GetFront(Prop("aggs", aggs), [], k);
    GetFront(Prop("query", query), last, k);
    GetOptional("terminate_after", terminateAfter, tail, k);
    GetOptional("timeout", timeout, t2, k);
    GetFront(Prop("size", Num(0.0)), t1, k);
  }

  /** The caller's filters sit at `query.bool.filter`, an empty list when none were given. */
  lemma BodyWithFilter(timeout: Option<Json>, terminateAfter: Option<Json>, filter: seq<Json>, aggs: Json)
    ensures At(Obj(BodyWith(timeout, terminateAfter, filter, aggs)), ["query", "bool", "filter"]) == Some(Arr(filter))
  {
    var b := BodyWith(timeout, terminateAfter, filter, aggs);
    var boolClause := Obj([Prop("filter", Arr(filter))]);
    var query := Obj([Prop("bool", boolClause)]);
    BodyWithGet(timeout, terminateAfter, filter, aggs, "query");
    AtCons(Obj(b), "query", ["bool", "filter"]);
    AtCons(query, "bool", ["filter"]);
    AtCons(boolClause, "filter", []);
    assert ["query", "bool", "filter"] == ["query"] + ["bool", "filter"];
    assert ["bool", "filter"] == ["bool"] + ["filter"];
    assert ["filter"] == ["filter"] + [];
  }

  /** Replacing `aggs` keeps its place: the spread body with a new `aggs` is the same layout around the new aggregation. */
  lemma BodyWithSetAggs(timeout: Option<Json>, terminateAfter: Option<Json>, filter: seq<Json>, aggs: Json, aggs': Json)
    ensures Set(BodyWith(timeout, terminateAfter, filter, aggs), "aggs", aggs') == BodyWith(timeout, terminateAfter, filter, aggs')
  {
    var query := Obj([Prop("bool", Obj([Prop("filter", Arr(filter))]))]);
    var t3 := Optional("terminate_after", terminateAfter) + [Prop("query", query)];
    var t2 := Optional("timeout", timeout) + t3;
    var pre := [Prop("size", Num(0.0))] + t2;
    assert BodyWith(timeout, terminateAfter, filter, aggs) == pre + [Prop("aggs", aggs)];
    assert BodyWith(timeout, terminateAfter, filter, aggs') == pre + [Prop("aggs", aggs')];
    GetFront(Prop("query", query), [], "aggs");
    GetOptional("terminate_after", terminateAfter, [Prop("query", query)], "aggs");
    GetOptional("timeout", timeout, t3, "aggs");
    GetFront(Prop("size", Num(0.0)), t2, "aggs");
    SetLast(pre, "aggs", aggs, aggs');
  }

  /**
   * The body `getBody` returns: the flat layout, whose `aggs` is the
   * suggestions aggregation, or for a nested field the nested wrapper
   * around that same aggregation in the same place.
   */
  lemma GetBodyLayout(timeout: Option<Json>, terminateAfter: Option<Json>, field: Json, query: string,
                      boolFilter: Option<seq<Json>>)
    ensures NestedInfo(field).None? ==>
      GetBody(timeout, terminateAfter, field, query, boolFilter)
        == BodyWith(timeout, terminateAfter, Filters(boolFilter), SuggestionsAggs(field, query))
    ensures NestedInfo(field).Some? ==>
      GetBody(timeout, terminateAfter, field, query, boolFilter)
        == BodyWith(timeout, terminateAfter, Filters(boolFilter),
                    NestedAggs(NestedInfo(field).value, SuggestionsAggs(field, query)))
  {
    if NestedInfo(field).Some? {
      BodyWithSetAggs(timeout, terminateAfter, Filters(boolFilter), SuggestionsAggs(field, query),
                      NestedAggs(NestedInfo(field).value, SuggestionsAggs(field, query)));
    }
  }

  /**
   * The top level of every body: the keys in literal order, `size` 0, the
   * settings passed in (absent when undefined) and the caller's filters,
   * nested field or not.
   */
  lemma GetBodyTop(timeout: Option<Json>, terminateAfter: Option<Json>, field: Json, query: string,
                   boolFilter: Option<seq<Json>>)
    ensures var b := GetBody(timeout, terminateAfter, field, query, boolFilter);
      && Keys(b) == BodyKeys(timeout, terminateAfter)
      && Get(b, "size") == Some(Num(0.0))
      && Get(b, "timeout") == timeout
      && Get(b, "terminate_after") == terminateAfter
      && At(Obj(b), ["query", "bool", "filter"]) == Some(Arr(Filters(boolFilter)))
  {
    GetBodyLayout(timeout, terminateAfter, field, query, boolFilter);
    var aggs := match NestedInfo(field)
      case Some(n) => NestedAggs(n, SuggestionsAggs(field, query))
      case None => SuggestionsAggs(field, query);
    var filter := Filters(boolFilter);
    BodyWithKeys(timeout, terminateAfter, filter, aggs);
    BodyWithGet(timeout, terminateAfter, filter, aggs, "size");
    BodyWithGet(timeout, terminateAfter, filter, aggs, "timeout");
    BodyWithGet(timeout, terminateAfter, filter, aggs, "terminate_after");
    BodyWithFilter(timeout, terminateAfter, filter, aggs);
  }

  /** One step down a path through a property known to be there. */
  lemma AtVia(j: Json, k: string, c: Json, rest: seq<string>)
    requires Member(j, k) == Some(c)
    ensures At(j, [k] + rest) == At(c, rest)
  {
    AtCons(j, k, rest);
  }

  /** The flat aggregation holds the terms aggregation under `suggestions`. */
  lemma SuggestionsTerms(field: Json, query: string)
    ensures At(SuggestionsAggs(field, query), ["suggestions", "terms"]) == Some(Terms(field, query))
  {
    var suggestions := Obj([Prop("terms", Terms(field, query))]);
    var p0: seq<string> := [];
    var p1 := ["terms"] + p0;
    AtVia(suggestions, "terms", Terms(field, query), p0);
    AtVia(SuggestionsAggs(field, query), "suggestions", suggestions, p1);
    assert ["suggestions", "terms"] == ["suggestions"] + p1;
  }

  /** The nested wrapper holds the inner aggregation under `nestedSuggestions.aggs`. */
  lemma NestedInner(nested: Json, inner: Json, p: seq<string>)
    ensures At(NestedAggs(nested, inner), ["nestedSuggestions", "aggs"] + p) == At(inner, p)
  {
    var path := Obj(Optional("path", Member(nested, "path")));
    var wrapper := Obj([Prop("nested", path), Prop("aggs", inner)]);
    GetFront(Prop("aggs", inner), [], "aggs");
    GetFront(Prop("nested", path), [Prop("aggs", inner)], "aggs");
    assert wrapper.props == [Prop("nested", path)] + [Prop("aggs", inner)];
    AtVia(wrapper, "aggs", inner, p);
    AtVia(NestedAggs(nested, inner), "nestedSuggestions", wrapper, ["aggs"] + p);
    assert ["nestedSuggestions", "aggs"] + p == ["nestedSuggestions"] + (["aggs"] + p);
  }

  /** The terms aggregation sits at TermsPath, under the nested wrapper when there is one. */
  lemma GetBodyTerms(timeout: Option<Json>, terminateAfter: Option<Json>, field: Json, query: string,
                     boolFilter: Option<seq<Json>>)
    ensures At(Obj(GetBody(timeout, terminateAfter, field, query, boolFilter)), TermsPath(field))
      == Some(Terms(field, query))
  {
    GetBodyLayout(timeout, terminateAfter, field, query, boolFilter);
    var flat := SuggestionsAggs(field, query);
    var aggs := match NestedInfo(field)
      case Some(n) => NestedAggs(n, flat)
      case None => flat;
    var b := GetBody(timeout, terminateAfter, field, query, boolFilter);
    BodyWithGet(timeout, terminateAfter, Filters(boolFilter), aggs, "aggs");
    SuggestionsTerms(field, query);
    var inner := ["suggestions", "terms"];
    if NestedInfo(field).Some? {
      NestedInner(NestedInfo(field).value, flat, inner);
      AtVia(Obj(b), "aggs", aggs, ["nestedSuggestions", "aggs"] + inner);
      assert TermsPath(field) == ["aggs"] + (["nestedSuggestions", "aggs"] + inner);
    } else {
      AtVia(Obj(b), "aggs", aggs, inner);
      assert TermsPath(field) == ["aggs"] + inner;
    }
  }

  /** The nested wrapper aggregates on the field's nested path; the path is left out when the field has none. */
  lemma GetBodyNestedPath(timeout: Option<Json>, terminateAfter: Option<Json>, field: Json, query: string,
                          boolFilter: Option<seq<Json>>)
    requires NestedInfo(field).Some?
    ensures At(Obj(GetBody(timeout, terminateAfter, field, query, boolFilter)),
               ["aggs", "nestedSuggestions", "nested", "path"])
      == Member(NestedInfo(field).value, "path")
  {
    GetBodyLayout(timeout, terminateAfter, field, query, boolFilter);
    var n := NestedInfo(field).value;
    var flat := SuggestionsAggs(field, query);
    var aggs := NestedAggs(n, flat);
    var b := GetBody(timeout, terminateAfter, field, query, boolFilter);
    BodyWithGet(timeout, terminateAfter, Filters(boolFilter), aggs, "aggs");
    var nested := Obj(Optional("path", Member(n, "path")));
    var wrapper := Obj([Prop("nested", nested), Prop("aggs", flat)]);
    var p0: seq<string> := [];
    var p1 := ["path"] + p0;
    var p2 := ["nested"] + p1;
    var p3 := ["nestedSuggestions"] + p2;
    AtVia(wrapper, "nested", nested, p1);
    AtVia(aggs, "nestedSuggestions", wrapper, p2);
    AtVia(Obj(b), "aggs", aggs, p3);
    AtCons(nested, "path", p0);
    GetOptional("path", Member(n, "path"), [], "path");
    assert Optional("path", Member(n, "path")) + [] == Optional("path", Member(n, "path"));
    assert ["aggs", "nestedSuggestions", "nested", "path"] == ["aggs"] + p3;
  }

  /**
   * The terms aggregation reads the field's name (or the field itself when
   * it is not a field object), includes the escaped text followed by `.*`,
   * and asks for the `map` execution hint and a shard size of 10.
   */
  lemma TermsShape(field: Json, query: string)
    ensures Member(Terms(field, query), "field") == Some(FieldName(field))
    ensures Member(Terms(field, query), "include") == Some(Str(EscapeQuery(query) + ".*"))
    ensures Member(Terms(field, query), "execution_hint") == Some(Str("map"))
    ensures Member(Terms(field, query), "shard_size") == Some(Num(10.0))
  {
    var ps := Terms(field, query).props;
    var rest := [ps[3]];
    GetFront(ps[3], [], "shard_size");
    GetFront(ps[2], rest, "execution_hint");
    GetFront(ps[2], rest, "shard_size");
    GetFront(ps[1], [ps[2]] + rest, "include");
    GetFront(ps[1], [ps[2]] + rest, "execution_hint");
    GetFront(ps[1], [ps[2]] + rest, "shard_size");
    assert ps == [ps[0]] + ([ps[1]] + ([ps[2]] + rest));
  }
}
