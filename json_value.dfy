/**
 * The loosely typed JSON tree that Vega data requests and OpenSearch
 * request bodies are written in. Objects are ordered property lists, as
 * JavaScript objects keep their keys in insertion order.
 */
module JsonValue {

  datatype Option<+T> = None | Some(value: T)

  datatype Json =
    | Null
    | Bool(b: bool)
    | Num(n: real)
    | Str(s: string)
    | Arr(items: seq<Json>)
    | Obj(props: seq<Prop>)

  datatype Prop = Prop(key: string, value: Json)

  /** JavaScript truthiness (NaN cannot come out of parsed JSON). */
  predicate Truthy(j: Json) {
    match j
    case Null => false
    case Bool(b) => b
    case Num(n) => n != 0.0
    case Str(s) => s != ""
    case Arr(_) => true
    case Obj(_) => true
  }

  /** The keys of an object, in order. */
  function Keys(props: seq<Prop>): (ks: seq<string>)
    ensures |ks| == |props|
  {
    if props == [] then [] else [props[0].key] + Keys(props[1..])
  }

  /** Property read `o[k]`: the value of the first property named k. */
  function Get(props: seq<Prop>, k: string): Option<Json> {
    if props == [] then None
    else if props[0].key == k then Some(props[0].value)
    else Get(props[1..], k)
  }

  /** A read finds nothing exactly when the key is not among the object's keys. */
  lemma {:induction false} GetKeys(props: seq<Prop>, k: string)
    ensures Get(props, k).None? <==> k !in Keys(props)
  {
    if props != [] {
      GetKeys(props[1..], k);
      assert Keys(props) == [props[0].key] + Keys(props[1..]);
    }
  }

  /** What a read finds is one of the object's properties. */
  lemma {:induction false} GetIn(props: seq<Prop>, k: string)
    ensures Get(props, k).Some? ==> Prop(k, Get(props, k).value) in props
  {
    if props != [] && props[0].key != k {
      GetIn(props[1..], k);
    }
  }

  /** Property write `o[k] = v`: an existing key keeps its place, a new one goes last. */
  function Set(props: seq<Prop>, k: string, v: Json): (r: seq<Prop>)
    ensures Get(r, k) == Some(v)
    ensures forall k' :: k' != k ==> Get(r, k') == Get(props, k')
  {
    if props == [] then [Prop(k, v)]
    else if props[0].key == k then [Prop(k, v)] + props[1..]
    else [props[0]] + Set(props[1..], k, v)
  }

  /** A write keeps the key order: an existing key stays where it was, a new one goes last. */
  lemma {:induction false} SetKeys(props: seq<Prop>, k: string, v: Json)
    ensures Keys(Set(props, k, v)) == if k in Keys(props) then Keys(props) else Keys(props) + [k]
  {
    if props != [] && props[0].key != k {
      SetKeys(props[1..], k, v);
      assert Keys(props) == [props[0].key] + Keys(props[1..]);
      assert Keys(Set(props, k, v)) == [props[0].key] + Keys(Set(props[1..], k, v));
    }
  }

  /** Property removal `delete o[k]`. */
  function Delete(props: seq<Prop>, k: string): (r: seq<Prop>)
    ensures Get(r, k) == None
    ensures forall k' :: k' != k ==> Get(r, k') == Get(props, k')
    ensures k !in Keys(props) ==> r == props
  {
    if props == [] then []
    else if props[0].key == k then Delete(props[1..], k)
    else [props[0]] + Delete(props[1..], k)
  }

  /** Property read on any value: only objects have the keys this model asks for. */
  function Member(j: Json, k: string): (r: Option<Json>)
    ensures r.Some? ==> j.Obj? && Get(j.props, k) == r
  {
    match j
    case Obj(props) => Get(props, k)
    case _ => None
  }

  /** Follows a path of property names from j. */
  function At(j: Json, path: seq<string>): Option<Json> {
    if path == [] then Some(j)
    else match Member(j, path[0])
      case None => None
      case Some(c) => GetIn(j.props, path[0]); At(c, path[1..])
  }

  /** One step along a path. */
  lemma AtCons(j: Json, k: string, rest: seq<string>)
    ensures At(j, [k] + rest) == match Member(j, k) case None => None case Some(c) => At(c, rest)
  {
    assert ([k] + rest)[1..] == rest;
  }

  /** The keys of two property lists laid end to end. */
  lemma {:induction false} KeysAppend(props: seq<Prop>, extra: seq<Prop>)
    ensures Keys(props + extra) == Keys(props) + Keys(extra)
  {
    if props == [] {
      assert props + extra == extra;
    } else {
      assert (props + extra)[1..] == props[1..] + extra;
      KeysAppend(props[1..], extra);
    }
  }

  /** Writing the last property's key replaces that property, provided no earlier one has the key. */
  lemma {:induction false} SetLast(props: seq<Prop>, k: string, a: Json, b: Json)
    requires Get(props, k).None?
    ensures Set(props + [Prop(k, a)], k, b) == props + [Prop(k, b)]
  {
    if props == [] {
      assert props + [Prop(k, a)] == [Prop(k, a)];
    } else {
      assert (props + [Prop(k, a)])[1..] == props[1..] + [Prop(k, a)];
      SetLast(props[1..], k, a, b);
    }
  }
}
