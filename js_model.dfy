/** The slice of JavaScript values the client touches: values with their
    truthiness, property lookup, the `typeof ... === "object"` test, the
    `Object.assign` header merge, and the request bundle handed to an adapter. */
module JsModel {
  import opened Promises

  /** The Error classes the client raises or runs into. */
  datatype ErrorClass = PlainError | TypeError

  /** A JavaScript value. Numbers are integers plus NaN; a function is known by
      its identity only, since what it does is outside the model. */
  datatype Js =
    | Undefined
    | Null
    | Bool(b: bool)
    | Num(n: int)
    | NaN
    | Str(s: string)
    | Obj(props: map<string, Js>)
    | Func(id: nat)
    | Error(cls: ErrorClass, message: string)

  /** The value JavaScript's `!` negates: false, 0, NaN, "", null and undefined
      are falsy; every object and function is truthy. */
  predicate Truthy(v: Js)
  {
    match v
    case Undefined => false
    case Null => false
    case Bool(b) => b
    case Num(n) => n != 0
    case NaN => false
    case Str(s) => s != ""
    case _ => true
  }

  /** `typeof v === "object"` (true for null as well). */
  predicate TypeofObject(v: Js)
  {
    v.Null? || v.Obj? || v.Error?
  }

  /** `v[key]` for the property names the client reads: only plain objects carry
      them; on any other value the lookup gives undefined. */
  function Prop(v: Js, key: string): Js
  {
    if v.Obj? && key in v.props then v.props[key] else Undefined
  }

  /** null or undefined: the values destructuring throws on. */
  predicate Nullish(v: Js)
  {
    v.Undefined? || v.Null?
  }

  /** A destructuring default `{ key = d }`: applies only when the value is undefined. */
  function OrDefault(v: Js, d: Js): Js
  {
    if v.Undefined? then d else v
  }

  /** `x || null`. */
  function OrNull(v: Js): Js
  {
    if Truthy(v) then v else Null
  }

  /** The own enumerable properties `Object.assign` copies from a source. */
  function OwnEntries(v: Js): map<string, Js>
  {
    if v.Obj? then v.props else map[]
  }

  /** `Object.assign({}, base, extra)`: a fresh object holding every key of
      either source, the value from `extra` winning where both have the key.
      Neither source is changed (both are values here). */
  function MergeHeaders(base: Js, extra: Js): (h: map<string, Js>)
    ensures h.Keys == OwnEntries(base).Keys + OwnEntries(extra).Keys
    ensures forall k :: k in OwnEntries(extra) ==> h[k] == OwnEntries(extra)[k]
    ensures forall k :: k in OwnEntries(base) && k !in OwnEntries(extra) ==> h[k] == OwnEntries(base)[k]
  {
    OwnEntries(base) + OwnEntries(extra)
  }

  /** The rest properties `{ a, b, ...others }` collects from `v`: its own
      entries except the names destructured beside the rest element. */
  function RestOf(v: Js, named: set<string>): (rest: map<string, Js>)
    ensures rest.Keys == OwnEntries(v).Keys - named
    ensures forall k :: k in rest ==> rest[k] == OwnEntries(v)[k]
  {
    OwnEntries(v) - named
  }

  /** The single argument object an adapter function receives, as its own
      properties. A property the object literal names but whose value is missing
      is present with `Undefined`; a property it does not name is absent. */
  type Bundle = map<string, Js>

  /** What calling the function with a given identity on a bundle settles to.
      Adapter functions are code outside the model, so callers pass this in. */
  type Invoke = (nat, Bundle) -> Outcome<Js, Js>

  /** The TypeError the engine raises when destructuring null or undefined, or
      when calling a value that is not a function; its text is engine-specific
      and not modelled. */
  const ENGINE_TYPE_ERROR: Js := Error(TypeError, "")
}
