/**
  The slice of JavaScript values the Torii authenticator touches: the values
  stored under a session-data key, plain objects seen as string-keyed maps,
  Ember's `isEmpty`, property reads and writes, and `Object.assign`.
 */
module JsValues {

  /** A JavaScript value as the authenticator can see it. */
  datatype Value =
    | Undefined
    | Null
    | Bool(b: bool)
    | Num(n: int)
    | Str(s: string)
    | List(items: seq<Value>)
    /** Any other object (one with neither a numeric `size` nor a numeric `length`). */
    | Obj(id: nat)
    /** The TypeError the JavaScript runtime throws for a property access it refuses. */
    | TypeError

  /** A plain object: its own enumerable properties. */
  type Data = map<string, Value>

  /** Ember's `isEmpty`: null and undefined, the empty string and the empty array. */
  predicate IsEmpty(v: Value) {
    match v
    case Undefined => true
    case Null => true
    case Str(s) => |s| == 0
    case List(items) => |items| == 0
    case _ => false
  }

  /** Reading `obj[key]`: a missing property reads as `undefined`. */
  function GetProperty(obj: Data, key: string): Value {
    if key in obj then obj[key] else Undefined
  }

  /** Writing `obj[key] = v`: the property is created or overwritten, nothing else changes. */
  function SetProperty(obj: Data, key: string, v: Value): (r: Data)
    ensures r.Keys == obj.Keys + {key}
    ensures GetProperty(r, key) == v
    ensures forall k :: k in obj && k != key ==> r[k] == obj[k]
  {
    obj[key := v]
  }

  /**
    `Object.assign(target, source)`: every property of `source` is copied
    onto `target`, overriding a property of the same name.
   */
  function Assign(target: Data, source: Data): (r: Data)
    ensures r.Keys == target.Keys + source.Keys
    ensures forall k :: k in source ==> r[k] == source[k]
    ensures forall k :: k in target && k !in source ==> r[k] == target[k]
  {
    target + source
  }
}
