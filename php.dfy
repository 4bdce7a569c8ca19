/**
 * The few pieces of PHP value semantics the plugin relies on: what its
 * options and constants can hold, PHP's truthiness (`if ($x)`, `empty($x)`),
 * string conversion by the `.` operator, and the read `$x[0]`.
 */
module Php {

  /**
   * A PHP value as it comes out of the option table (`false` when the option
   * was never saved, strings for text fields, arrays for checkbox and select
   * fields) or out of a `define`d constant. Arrays are lists (keys 0, 1, ...),
   * which is what the settings form stores.
   */
  datatype PhpValue =
    | Null
    | Bool(b: bool)
    | Str(s: string)
    | Arr(items: seq<PhpValue>)

  /** PHP's conversion to boolean; `empty($v)` is its negation. */
  predicate Truthy(v: PhpValue)
    ensures Truthy(v) <==> v !in {Null, Bool(false), Str(""), Str("0"), Arr([])}
  {
    match v
    case Null => false
    case Bool(b) => b
    case Str(s) => s != "" && s != "0"
    case Arr(items) => items != []
  }

  /** PHP's conversion to string, as done by the concatenation operator `.`. */
  function ToStr(v: PhpValue): string {
    match v
    case Null => ""
    case Bool(b) => if b then "1" else ""
    case Str(s) => s
    case Arr(_) => "Array"
  }

  /**
   * The read `$v[0]`: the first item of a list, the first character of a
   * string, and `null` (with a PHP notice) for a missing item or a scalar.
   */
  function ElementZero(v: PhpValue): (r: PhpValue)
    ensures v.Arr? && v.items != [] ==> r == v.items[0]
    ensures v.Arr? && v.items == [] ==> r == Null
    ensures v.Str? ==> r.Str? && |r.s| == (if v.s == [] then 0 else 1) && r.s <= v.s
    ensures !v.Arr? && !v.Str? ==> r == Null
  {
    match v
    case Arr(items) => if items == [] then Null else items[0]
    case Str(s) => if s == "" then Str("") else Str([s[0]])
    case _ => Null
  }

  /** The five falsy values of the settings layer, and look-alikes that are truthy. */
  lemma FalsyValues()
    ensures !Truthy(Bool(false)) && !Truthy(Null) && !Truthy(Str("")) && !Truthy(Str("0")) && !Truthy(Arr([]))
    ensures Truthy(Str("00")) && Truthy(Str("false")) && Truthy(Str(" ")) && Truthy(Arr([Bool(false)]))
  {
    assert "00" != "0" by { assert |"00"| != |"0"|; }
    assert " " != "0" by { assert " "[0] != "0"[0]; }
    assert "false" != "0" by { assert |"false"| != |"0"|; }
  }
}
