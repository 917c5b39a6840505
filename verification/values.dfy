/**
 * PHP values as they appear in option arrays (`$table->getOptions()`, column
 * options, console option defaults), with the PHP semantics the model needs:
 * `isset`, truthiness and conversion to a string.
 */
module Values {
  import opened PhpStrings

  /** A PHP scalar, `null`, or a list of strings. */
  datatype OptValue = Null | Bool(b: bool) | Int(i: int) | Str(s: string) | List(items: seq<string>)

  /** A PHP array with string keys; key order never matters to the model. */
  type Options = map<string, OptValue>

  /** `isset($opts[$k])`: the key is present and its value is not `null`. */
  predicate Isset(opts: Options, k: string) {
    k in opts && opts[k] != Null
  }

  /** PHP truthiness of a string: every string except `""` and `"0"` is true. */
  predicate TextTruthy(s: string) {
    s != "" && s != "0"
  }

  /** PHP truthiness of a value, as used by `if ($v)`, `&&` and `?:`. */
  predicate Truthy(v: OptValue) {
    match v
    case Null => false
    case Bool(b) => b
    case Int(i) => i != 0
    case Str(s) => TextTruthy(s)
    case List(items) => items != []
  }

  /**
   * PHP's conversion to a string as done by `sprintf('%s', …)` and string
   * parameters: `true` is "1", `false` and `null` are "", an array is "Array".
   */
  function ToText(v: OptValue): string {
    match v
    case Null => ""
    case Bool(b) => if b then "1" else ""
    case Int(i) => IntToDecimal(i)
    case Str(s) => s
    case List(_) => "Array"
  }
}
