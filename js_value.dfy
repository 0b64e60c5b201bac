/**
 * JSON-shaped JavaScript values as the stores, request bodies and settings hold them,
 * with JavaScript truthiness and object spread (`{ ...v }`).
 */
module JsValue {
  import opened Decimal

  datatype Json =
    | Null
    | Bool(b: bool)
    | Num(n: real)
    | Str(s: string)
    | Arr(items: seq<Json>)
    | Obj(fields: Object)

  /** A plain object: property name to value. Key order is not modelled. */
  type Object = map<string, Json>

  /** JavaScript truthiness of a defined value (NaN is not modelled). */
  predicate Truthy(v: Json) {
    match v
    case Null => false
    case Bool(b) => b
    case Num(n) => n != 0.0
    case Str(s) => s != ""
    case Arr(_) => true
    case Obj(_) => true
  }

  /** Truthiness of `o.key`, where a missing property reads as `undefined`. */
  predicate TruthyField(o: Object, key: string) {
    key in o && Truthy(o[key])
  }

  /** The own enumerable properties of an array or string: index `i` under the key `String(i)`. */
  function IndexKeyed(items: seq<Json>): (o: Object)
    ensures forall i :: 0 <= i < |items| ==> Dec(i) in o && o[Dec(i)] == items[i]
    ensures forall k :: k in o ==> exists i :: 0 <= i < |items| && k == Dec(i)
  {
    DecInjectiveAll();
    map i | 0 <= i < |items| :: Dec(i) := items[i]
  }

  /**
   * `{ ...v }`: an object contributes its properties, an array or a string its
   * indexed elements (a string one character per index), every other value nothing.
   */
  function Spread(v: Json): (o: Object)
    ensures v.Obj? ==> o == v.fields
    ensures !v.Obj? && !v.Arr? && !v.Str? ==> o == map[]
    ensures v.Arr? ==> forall i :: 0 <= i < |v.items| ==> Dec(i) in o && o[Dec(i)] == v.items[i]
    ensures v.Arr? ==> forall k :: k in o ==> exists i :: 0 <= i < |v.items| && k == Dec(i)
    ensures v.Str? ==> forall i :: 0 <= i < |v.s| ==> Dec(i) in o && o[Dec(i)] == Str([v.s[i]])
    ensures v.Str? ==> forall k :: k in o ==> exists i :: 0 <= i < |v.s| && k == Dec(i)
  {
    match v
    case Obj(m) => m
    case Arr(items) => IndexKeyed(items)
    case Str(s) => IndexKeyed(seq(|s|, i requires 0 <= i < |s| => Str([s[i]])))
    case _ => map[]
  }

  /**
   * `{ ...base, ...v }`: a shallow merge. Every property of `v` replaces the
   * property of the same name wholesale (nested objects are not merged);
   * properties `v` lacks are kept.
   */
  function Merge(base: Object, v: Json): (r: Object)
    ensures r.Keys == base.Keys + Spread(v).Keys
    ensures forall k :: k in Spread(v) ==> r[k] == Spread(v)[k]
    ensures forall k :: k in base && k !in Spread(v) ==> r[k] == base[k]
  {
    base + Spread(v)
  }
}
