/**
 * The JSON-shaped values that arrive in webhook payloads and action parameters,
 * and the few JavaScript operations the core applies to them: property reads
 * (which throw on `undefined` and `null`), optional chaining, truthiness and
 * string interpolation inside template literals.
 */
module Json {
  import opened Wrappers

  datatype Json =
    | JNull
    | JBool(b: bool)
    | JNum(n: int)
    | JStr(s: string)
    | JArr(elems: seq<Json>)
    | JObj(fields: map<string, Json>)

  /** A JavaScript value taken out of a payload; `None` is `undefined`. */
  type Value = Option<Json>

  /** `v == null` in JavaScript: `undefined` or `null`. */
  predicate IsNullish(v: Value) {
    v.None? || v.value.JNull?
  }

  /** Property `key` of a value that is neither `undefined` nor `null`; primitives and arrays have none of the keys the core reads. */
  function Prop(v: Value, key: string): Value
    requires !IsNullish(v)
  {
    match v.value
    case JObj(fields) => if key in fields then Some(fields[key]) else None
    case _ => None
  }

  /** Optional chaining `v?.key`: `undefined` when `v` is `undefined` or `null`, never throws. */
  function OptProp(v: Value, key: string): Value {
    if IsNullish(v) then None else Prop(v, key)
  }

  predicate IsString(v: Value) {
    v.Some? && v.value.JStr?
  }

  /** JavaScript truthiness (numbers are integers in this model, so NaN does not arise). */
  predicate Truthy(v: Value) {
    match v
    case None => false
    case Some(j) =>
      match j
      case JNull => false
      case JBool(b) => b
      case JNum(n) => n != 0
      case JStr(s) => s != ""
      case JArr(_) => true
      case JObj(_) => true
  }

  /** The `typeof` operator. */
  function TypeOf(v: Value): string {
    match v
    case None => "undefined"
    case Some(j) =>
      match j
      case JBool(_) => "boolean"
      case JNum(_) => "number"
      case JStr(_) => "string"
      case _ => "object"
  }

  /** The property names of an array of length `n` besides `length`: its indices, in decimal. */
  function IndexNames(n: nat): set<string> {
    if n == 0 then {} else IndexNames(n - 1) + {NatToDecimal(n - 1)}
  }

  /** A decimal numeral starts with a digit. */
  lemma {:induction false} NumeralStartsWithDigit(n: nat)
    ensures '0' <= NatToDecimal(n)[0] <= '9'
    decreases n
  {
    if n >= 10 {
      NumeralStartsWithDigit(n / 10);
    }
  }

  /** Index names are numerals: none of them starts with anything but a digit. */
  lemma {:induction false} IndexNamesAreNumerals(n: nat, key: string)
    requires key in IndexNames(n)
    ensures key != [] && '0' <= key[0] <= '9'
    decreases n
  {
    if key == NatToDecimal(n - 1) {
      NumeralStartsWithDigit(n - 1);
    } else {
      IndexNamesAreNumerals(n - 1, key);
    }
  }

  /** A name that does not start with a digit is not an index name. */
  lemma IndexNamesExclude(n: nat, key: string)
    requires key != [] && !('0' <= key[0] <= '9')
    ensures key !in IndexNames(n)
  {
    if key in IndexNames(n) {
      IndexNamesAreNumerals(n, key);
    }
  }

  /** The `in` operator, `key in j`, on an object or an array (on anything else it throws). */
  predicate HasProperty(j: Json, key: string)
    requires j.JObj? || j.JArr?
  {
    match j
    case JObj(fields) => key in fields
    case JArr(elems) => key == "length" || key in IndexNames(|elems|)
  }

  function DigitChar(d: nat): char
    requires d < 10
  {
    ('0' as int + d) as char
  }

  /** Decimal notation of a natural number, most significant digit first. */
  function NatToDecimal(n: nat): (r: string)
    ensures r != []
    decreases n
  {
    if n < 10 then [DigitChar(n)] else NatToDecimal(n / 10) + [DigitChar(n % 10)]
  }

  function IntToDecimal(n: int): string {
    if n < 0 then "-" + NatToDecimal(-n) else NatToDecimal(n)
  }

  /** `${v}` inside a template literal. Arrays are joined with "," and their `null`/`undefined` elements become empty. */
  function Interpolate(v: Value): string {
    match v
    case None => "undefined"
    case Some(j) => JsonToString(j)
  }

  function JsonToString(j: Json): string
    decreases j, 1
  {
    match j
    case JNull => "null"
    case JBool(b) => if b then "true" else "false"
    case JNum(n) => IntToDecimal(n)
    case JStr(s) => s
    case JArr(elems) => JoinElements(j, elems)
    case JObj(_) => "[object Object]"
  }

  function JoinElements(parent: Json, elems: seq<Json>): string
    requires forall e | e in elems :: e < parent
    decreases parent, 0, |elems|
  {
    if elems == [] then ""
    else
      assert elems[0] in elems;
      var head := if elems[0].JNull? then "" else JsonToString(elems[0]);
      assert forall e | e in elems[1..] :: e in elems;
      if |elems| == 1 then head else head + "," + JoinElements(parent, elems[1..])
  }
}
