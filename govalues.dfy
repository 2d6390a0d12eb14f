/** Go's dynamic values (`any`), its `byte`, and the numeric conversions the core applies to them. */
module GoValues {

  /** A Go `byte`. */
  type Byte = x: int | 0 <= x < 256

  /**
   * A Go value of static type `any`. `encoding/json` produces only `Nil`, `Bool`, `Float64`,
   * `Str`, `AnyList` and `Object`; `Int` and `StringList` appear when a caller builds the map itself.
   */
  datatype Any =
    | Nil
    | Bool(b: bool)
    | Float64(f: real)
    | Int(i: int)
    | Str(s: string)
    | AnyList(items: seq<Any>)
    | StringList(strs: seq<string>)
    | Object(fields: map<string, Any>)

  /** The type argument of a type assertion `v.(T)`. */
  datatype GoType = TBool | TFloat64 | TInt | TString | TAnyList | TStringList

  /** The assertion `v.(t)` succeeds. */
  predicate HasType(v: Any, t: GoType)
  {
    match t
    case TBool => v.Bool?
    case TFloat64 => v.Float64?
    case TInt => v.Int?
    case TString => v.Str?
    case TAnyList => v.AnyList?
    case TStringList => v.StringList?
  }

  /** Go's conversion of a float64 to an integer type: the fraction is discarded (toward zero). */
  function TruncateToInt(f: real): (n: int)
    ensures 0.0 <= f ==> 0 <= n && n as real <= f < n as real + 1.0
    ensures f < 0.0 ==> n <= 0 && n as real - 1.0 < f <= n as real
  {
    if f >= 0.0 then f.Floor else -((-f).Floor)
  }
}
