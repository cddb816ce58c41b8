/** Parsed JSON replies of the language model, and the Python operations the
    extractors apply to them: truthiness, `key in d and d[key]`, `.lower()`
    and `str()`. Floating-point numbers are not modelled. */
module JsonValues {
  import opened Wrappers
  import opened Text

  datatype Json =
    | Null
    | Bool(b: bool)
    | Num(n: int)
    | Str(s: string)
    | List(items: seq<Json>)
    | Object(fields: map<string, Json>)

  /** Python's truth value of the decoded value. */
  predicate Truthy(j: Json) {
    match j
    case Null => false
    case Bool(b) => b
    case Num(n) => n != 0
    case Str(s) => s != ""
    case List(items) => items != []
    case Object(fields) => fields != map[]
  }

  /** `key in d and d[key]`. */
  predicate HasTruthy(d: map<string, Json>, key: string) {
    key in d && Truthy(d[key])
  }

  /** `d[key].lower()`: `None` is the `AttributeError` of a value that is not
      a string. */
  function LowerField(d: map<string, Json>, key: string): (r: Option<string>)
    requires key in d
    ensures r.Some? <==> d[key].Str?
    ensures r.Some? ==> |r.value| == |d[key].s|
  {
    if d[key].Str? then Some(Lower(d[key].s)) else None
  }

  /** The number a string of decimal digits spells, read left to right. */
  function DigitValue(s: string): nat
    requires forall i | 0 <= i < |s| :: '0' <= s[i] <= '9'
  {
    if s == [] then 0
    else 10 * DigitValue(s[..|s| - 1]) + (s[|s| - 1] as int - '0' as int)
  }

  /** The decimal digits of a natural number, as `str` writes them: they spell
      the number, and only zero itself starts with the digit 0. */
  function Digits(n: nat): (r: string)
    ensures r != []
    ensures forall i | 0 <= i < |r| :: '0' <= r[i] <= '9'
    ensures DigitValue(r) == n
    ensures r[0] == '0' ==> r == "0"
  {
    var d := [('0' as int + n % 10) as char];
    if n < 10 then d
    else
      var front := Digits(n / 10);
      assert (front + d)[..|front + d| - 1] == front;
      front + d
  }

  /** `str(j)` for the values a record field can hold. A list or an object is
      shown as a fixed marker. */
  function Show(j: Json): (r: string)
    ensures j.Str? ==> r == j.s
    ensures j.Num? && j.n >= 0 ==> r == Digits(j.n)
    ensures j.Num? && j.n < 0 ==> r == "-" + Digits(-j.n)
  {
    match j
    case Null => "None"
    case Bool(b) => if b then "True" else "False"
    case Num(n) => if n < 0 then "-" + Digits(-n) else Digits(n)
    case Str(s) => s
    case List(_) => "[...]"
    case Object(_) => "{...}"
  }
}
