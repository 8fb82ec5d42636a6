/**
 * The JSON values the bot receives from the homework API, and the few
 * Python built-ins it applies to them: dict.get, str() and type names.
 */
module Json {

  /** A decoded JSON document. Numbers are integers only. */
  datatype Json =
    | JNull
    | JBool(b: bool)
    | JInt(i: int)
    | JStr(s: string)
    | JList(items: seq<Json>)
    | JDict(fields: map<string, Json>)

  /** dict.get(key): None when the key is absent, the stored value otherwise. */
  function Get(fields: map<string, Json>, key: string): Json
  {
    if key in fields then fields[key] else JNull
  }

  /** The name of the Python type a JSON value decodes to. */
  function TypeName(j: Json): string
  {
    match j
    case JNull => "NoneType"
    case JBool(_) => "bool"
    case JInt(_) => "int"
    case JStr(_) => "str"
    case JList(_) => "list"
    case JDict(_) => "dict"
  }

  function DigitChar(d: nat): (c: char)
    requires d < 10
    ensures '0' <= c <= '9' && c as int - '0' as int == d
  {
    "0123456789"[d]
  }

  /** The number a string of decimal digits denotes, as int() reads it. */
  function DecimalValue(digits: string): nat
    requires forall k :: 0 <= k < |digits| ==> '0' <= digits[k] <= '9'
    decreases |digits|
  {
    if digits == [] then 0
    else DecimalValue(digits[..|digits| - 1]) * 10 + (digits[|digits| - 1] as int - '0' as int)
  }

  /** Decimal digits of a natural number, most significant first; they read back as the number. */
  function Digits(n: nat): (r: string)
    ensures |r| > 0
    ensures forall k :: 0 <= k < |r| ==> '0' <= r[k] <= '9'
    ensures DecimalValue(r) == n
    ensures |r| == 1 || r[0] != '0'
    decreases n
  {
    if n < 10 then [DigitChar(n)]
    else
      var front := Digits(n / 10);
      assert (front + [DigitChar(n % 10)])[..|front|] == front;
      front + [DigitChar(n % 10)]
  }

  /**
   * str() of a value, as an f-string interpolates it: a string is itself,
   * an integer its decimal notation with a leading '-' when negative.
   */
  function Str(j: Json): (r: string)
    ensures j.JStr? ==> r == j.s
    ensures j.JBool? ==> r == (if j.b then "True" else "False")
    ensures j.JInt? && j.i >= 0 ==>
      (forall k :: 0 <= k < |r| ==> '0' <= r[k] <= '9') && DecimalValue(r) == j.i
      && |r| > 0 && (|r| == 1 || r[0] != '0')
    ensures j.JInt? && j.i < 0 ==>
      |r| > 1 && r[0] == '-' && (forall k :: 1 <= k < |r| ==> '0' <= r[k] <= '9') && DecimalValue(r[1..]) == -j.i
      && r[1] != '0'
  {
    match j
    case JNull => "None"
    case JBool(b) => if b then "True" else "False"
    case JInt(i) => if i < 0 then "-" + Digits(-i) else Digits(i)
    case JStr(s) => s
    case JList(_) => "[...]"
    case JDict(_) => "{...}"
  }
}
