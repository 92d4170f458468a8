/** JavaScript values as the two controllers exchange them. */
module Json {

  /** Property names: those the protocol gives a meaning to, upper-cased, and every other string. */
  datatype Key =
    | MESSAGE_TYPE | REQUEST_ID | RESULT_VERSION | SELLER_ID | SUBAGENT_ID | VERIFICATION
    | STATUS | OUTPUT | ARTIFACTS | ERROR | TIMING | USAGE
    | SCHEMA_VALID | SIGNATURE_VALID | SIGNATURE_ALGORITHM | SIGNER_PUBLIC_KEY_PEM | SIGNATURE_BASE64
    | CODE | MESSAGE | RETRYABLE | DISPLAY_CODE
    | ARTIFACT_ID | NAME | MEDIA_TYPE | BYTE_SIZE | SHA256 | DELIVERY | KIND
    | ACCEPTED_AT | FINISHED_AT | ELAPSED_MS | TOKENS_IN | TOKENS_OUT
    | CONTENT_BASE64 | LENGTH | TO_STRING
    | Other(text: string)

  datatype Json =
    | Undefined
    | Null
    | Bool(b: bool)
    | Num(n: int)
    | Str(s: string)
    | Arr(items: seq<Json>)
    | Obj(fields: map<Key, Json>)

  /** An object's own properties. */
  type Record = map<Key, Json>

  /** `r[key]` */
  function Get(r: Record, key: Key): Json {
    if key in r then r[key] else Undefined
  }

  /** `v?.key` */
  function Prop(v: Json, key: Key): Json {
    if v.Obj? then Get(v.fields, key) else Undefined
  }

  /** Reading a property of it throws. */
  predicate IsNull(v: Json) {
    v.Null? || v.Undefined?
  }

  /** `a === b`, for values that were parsed apart: two objects, or two arrays, are never the same. */
  predicate SameValue(a: Json, b: Json) {
    a == b && !a.Obj? && !a.Arr?
  }

  /** `v.length` */
  function LengthOf(v: Json): Json {
    match v
    case Str(s) => Num(|s|)
    case Arr(items) => Num(|items|)
    case _ => Prop(v, LENGTH)
  }

  /**
   `Number(v)` throws: an object whose own `toString`, which is no function, hides the inherited one, or an array that
   holds such a value.
   */
  predicate Unconvertible(v: Json) {
    match v
    case Obj(fields) => TO_STRING in fields
    case Arr(items) => exists i :: 0 <= i < |items| && Unconvertible(items[i])
    case _ => false
  }

  /** `Boolean(v)` */
  predicate Truthy(v: Json) {
    match v
    case Undefined => false
    case Null => false
    case Bool(b) => b
    case Num(n) => n != 0
    case Str(s) => s != ""
    case Arr(_) => true
    case Obj(_) => true
  }

  /** `a || b` */
  function OrElse(a: Json, b: Json): Json {
    if Truthy(a) then a else b
  }
}
