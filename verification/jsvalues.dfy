/** The JavaScript values a parsed model response can hold, the coercions the
    parsers apply to them, and the host functions the model treats as oracles. */
module JsValues {
  import opened Optional
  import opened JsText

  /** A value produced by `JSON.parse` (plus `undefined` for a missing key).
      Numbers are reals: NaN and the infinities are not represented. */
  datatype JsValue =
    | Undefined
    | Null
    | Bool(b: bool)
    | Num(n: real)
    | Str(s: string)
    | Arr(elems: seq<JsValue>)
    | Obj(fields: map<string, JsValue>)

  /** JavaScript truthiness, i.e. `Boolean(v)`. */
  predicate Truthy(v: JsValue) {
    match v
    case Undefined => false
    case Null => false
    case Bool(b) => b
    case Num(n) => n != 0.0
    case Str(s) => |s| > 0
    case Arr(_) => true
    case Obj(_) => true
  }

  /** `a || b`. */
  function Or(a: JsValue, b: JsValue): JsValue {
    if Truthy(a) then a else b
  }

  /** `typeof v === 'object'`: true for `null` and for arrays as well. */
  predicate IsObjectType(v: JsValue) {
    v.Null? || v.Arr? || v.Obj?
  }

  /** Property access `v.key` for a key that is neither an array index nor a
      built-in property name (every key the parsers read is of that kind). */
  function Get(v: JsValue, key: string): JsValue {
    if v.Obj? && key in v.fields then v.fields[key] else Undefined
  }

  /** Library functions whose internals are not modelled: `JSON.parse`
      (`None` when it throws) and the decimal formatting of a number. */
  datatype Runtime = Runtime(parseJson: string -> Option<JsValue>, numberToString: real -> string)

  /** `String(v)` throws a `TypeError` on `v`: an object with a `toString`
      key of its own (no parsed value is callable, so neither `toString` nor
      `valueOf` yields a primitive), or an array holding such a value at any
      depth, which `join` converts element by element. */
  predicate ToStrThrows(v: JsValue)
    decreases v
  {
    match v
    case Obj(fields) => "toString" in fields
    case Arr(elems) => exists i :: 0 <= i < |elems| && ToStrThrows(elems[i])
    case _ => false
  }

  /** `String(v)`, or `None` when it throws; an array is joined with commas,
      with `null` and `undefined` elements written as empty text. */
  function ToStr(v: JsValue, rt: Runtime): (r: Option<string>)
    ensures r.None? <==> ToStrThrows(v)
    ensures v.Str? ==> r == Some(v.s)
    ensures v.Obj? && "toString" !in v.fields ==> r == Some("[object Object]")
    decreases v
  {
    match v
    case Undefined => Some("undefined")
    case Null => Some("null")
    case Bool(b) => Some(if b then "true" else "false")
    case Num(n) => Some(rt.numberToString(n))
    case Str(s) => Some(s)
    case Arr(elems) =>
      var parts := seq(|elems|, i requires 0 <= i < |elems| =>
                         if elems[i].Undefined? || elems[i].Null? then Some("") else ToStr(elems[i], rt));
      assert forall i :: 0 <= i < |elems| ==> (parts[i].None? <==> ToStrThrows(elems[i]));
      if forall i :: 0 <= i < |parts| ==> parts[i].Some? then
        Some(Join(seq(|parts|, i requires 0 <= i < |parts| => parts[i].value), ","))
      else None
    case Obj(fields) => if "toString" in fields then None else Some("[object Object]")
  }
}
