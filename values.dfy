/** PHP values as the plugin stores, posts and compares them, with the few
    PHP conversions the plugin's logic depends on. */
module Values {

  datatype Option<T> = None | Some(value: T)

  /** A PHP value. PHP has a single array type: `List` stands for an array
      whose keys are 0, 1, 2, ... or are never read, `Dict` for an array
      keyed by strings (an options blob, a posted form). */
  datatype Value =
    | Null
    | Bool(b: bool)
    | Int(i: int)
    | Float(r: real)
    | Str(s: string)
    | List(items: seq<Value>)
    | Dict(entries: map<string, Value>)

  /** `empty($s)` on a string: PHP treats "0" as empty too. */
  predicate EmptyString(s: string) {
    s == "" || s == "0"
  }

  /** `empty($v)`, equivalently `!$v`: the falsy values. */
  predicate IsEmpty(v: Value) {
    match v
    case Null => true
    case Bool(b) => !b
    case Int(i) => i == 0
    case Float(r) => r == 0.0
    case Str(s) => EmptyString(s)
    case List(items) => items == []
    case Dict(entries) => entries == map[]
  }

  /** `boolval($v)`. */
  predicate Truthy(v: Value) {
    !IsEmpty(v)
  }

  predicate IsArray(v: Value) {
    v.List? || v.Dict?
  }

  predicate IsDigit(c: char) {
    '0' <= c <= '9'
  }

  /** Decimal digits of a natural number, most significant first. */
  function NatToString(n: nat): (r: string)
    ensures |r| >= 1
    ensures forall i :: 0 <= i < |r| ==> IsDigit(r[i])
    ensures |r| > 1 ==> r[0] != '0'
  {
    var d := [(n % 10) as char + '0'];
    if n < 10 then d else NatToString(n / 10) + d
  }

  /** `(string) $i` for an integer. */
  function IntToString(i: int): string {
    if i < 0 then "-" + NatToString(-i) else NatToString(i)
  }

  /** `(string) $v` for a scalar, as used when the plugin builds option
      names or strips an action name. An array converts to "Array"; the
      action-name sanitizer never converts a whole array, it strips each
      element. Floats are not rendered (see README). */
  function AsString(v: Value): string {
    match v
    case Null => ""
    case Bool(b) => if b then "1" else ""
    case Int(i) => IntToString(i)
    case Float(_) => ""
    case Str(s) => s
    case List(_) => "Array"
    case Dict(_) => "Array"
  }
}
