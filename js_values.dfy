/**
 * Values as JavaScript sees a decoded JSON response: the shapes the
 * front-end service inspects, with truthiness, property access and
 * `Object.entries`. An object's properties are listed in the order in which
 * JavaScript enumerates them; a well-formed object has no key twice.
 */
module JsValues {
  import opened Wrappers
  import Strings

  datatype JsValue =
    | Undefined
    | Null
    | Bool(b: bool)
    | Number(n: real)
    | Str(s: string)
    | Arr(items: seq<JsValue>)
    | Obj(props: seq<(string, JsValue)>)

  /** Reading any property of these throws a `TypeError`. */
  predicate IsNullish(v: JsValue)
  {
    v.Undefined? || v.Null?
  }

  /** What `if (v)` accepts. (Decoded JSON has no `NaN`.) */
  predicate Truthy(v: JsValue)
  {
    match v
    case Undefined => false
    case Null => false
    case Bool(b) => b
    case Number(n) => n != 0.0
    case Str(s) => s != ""
    case Arr(_) => true
    case Obj(_) => true
  }

  /** The value stored under `key`, or `undefined` when there is none. */
  function Lookup(props: seq<(string, JsValue)>, key: string): (r: JsValue)
    ensures r != Undefined ==> exists i :: 0 <= i < |props| && props[i] == (key, r)
  {
    if props == [] then Undefined
    else if props[0].0 == key then props[0].1
    else Lookup(props[1..], key)
  }

  /**
   * `v[key]` for a named key that is neither an array index, nor `length`,
   * nor a member that strings or arrays inherit: every key the services read
   * is such a name.
   */
  function Property(v: JsValue, key: string): JsValue
    requires !IsNullish(v)
  {
    match v
    case Obj(props) => Lookup(props, key)
    case _ => Undefined
  }

  /** `v[key]`, or `None` for the `TypeError` that reading a property of `null` or `undefined` throws. */
  function Get(v: JsValue, key: string): (r: Option<JsValue>)
    ensures r.None? <==> IsNullish(v)
  {
    if IsNullish(v) then None else Some(Property(v, key))
  }

  /** `v[k]` for an array index `k`; `None` for the `TypeError` on `null` or `undefined`. */
  function Index(v: JsValue, k: nat): (r: Option<JsValue>)
    ensures r.None? <==> IsNullish(v)
    ensures v.Arr? ==> r == Some(if k < |v.items| then v.items[k] else Undefined)
  {
    match v
    case Undefined => None
    case Null => None
    case Arr(items) => Some(if k < |items| then items[k] else Undefined)
    case Str(s) => Some(if k < |s| then Str([s[k]]) else Undefined)
    case Obj(props) => Some(Lookup(props, Strings.NatToString(k)))
    case _ => Some(Undefined)
  }

  /** `Object.entries(v)`; `None` for the `TypeError` on `null` or `undefined`. */
  function Entries(v: JsValue): (r: Option<seq<(string, JsValue)>>)
    ensures r.None? <==> IsNullish(v)
    ensures v.Obj? ==> r == Some(v.props)
  {
    match v
    case Undefined => None
    case Null => None
    case Obj(props) => Some(props)
    case Arr(items) => Some(seq(|items|, i requires 0 <= i < |items| => (Strings.NatToString(i), items[i])))
    case Str(s) => Some(seq(|s|, i requires 0 <= i < |s| => (Strings.NatToString(i), Str([s[i]]))))
    case _ => Some([])
  }
}
