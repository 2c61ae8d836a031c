/** JavaScript values as they come back from the backend, and the two
    JavaScript notions the sources rely on: truthiness and property access. */
module Json {
  import opened Wrappers

  /** Numbers are integers here: fractions and NaN are not modelled. */
  datatype Json =
    | Undefined
    | Null
    | Bool(b: bool)
    | Num(n: int)
    | Str(s: string)
    | Arr(items: seq<Json>)
    | Obj(fields: map<string, Json>)

  /** JavaScript truthiness: present and non-empty/non-zero. Arrays and
      objects are truthy even when empty. */
  predicate Truthy(v: Json) {
    match v
    case Undefined => false
    case Null => false
    case Bool(b) => b
    case Num(n) => n != 0
    case Str(s) => s != ""
    case Arr(_) => true
    case Obj(_) => true
  }

  /** `typeof v === "object"`: true of null, of arrays and of objects. */
  predicate TypeofObject(v: Json) {
    v.Null? || v.Arr? || v.Obj?
  }

  /** `v?.key`: the field of an object, `undefined` for anything else. */
  function Get(v: Json, key: string): (r: Json)
    ensures !v.Obj? ==> r == Undefined
    ensures v.Obj? && key !in v.fields ==> r == Undefined
    ensures v.Obj? && key in v.fields ==> r == v.fields[key]
  {
    if v.Obj? && key in v.fields then v.fields[key] else Undefined
  }

  /** The string inside `v` when `typeof v === "string"`. */
  function AsString(v: Json): Option<string> {
    if v.Str? then Some(v.s) else None
  }

  /** The first truthy value of `candidates`, as an `a || b || ...` chain
      that ends in `undefined` would pick it. */
  function FirstTruthy(candidates: seq<Json>): (r: Option<Json>)
    ensures r.Some? ==> Truthy(r.value) && r.value in candidates
    ensures r.None? <==> forall i :: 0 <= i < |candidates| ==> !Truthy(candidates[i])
  {
    if candidates == [] then None
    else if Truthy(candidates[0]) then Some(candidates[0])
    else FirstTruthy(candidates[1..])
  }

  lemma {:induction false} FirstTruthyIsFirst(candidates: seq<Json>, k: nat)
    requires k < |candidates| && Truthy(candidates[k])
    requires forall i :: 0 <= i < k ==> !Truthy(candidates[i])
    ensures FirstTruthy(candidates) == Some(candidates[k])
  {
    if k > 0 {
      FirstTruthyIsFirst(candidates[1..], k - 1);
    }
  }
}
