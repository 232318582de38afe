/** Decoded JSON values, as the Python code holds them after json.loads,
    and the few dictionary operations the core performs on them. */
module Json {
  import opened Wrappers

  /** A decoded JSON document. Python's None is JNull; numbers are integers. */
  datatype Json =
    | JNull
    | JBool(b: bool)
    | JNum(n: int)
    | JStr(s: string)
    | JArr(elems: seq<Json>)
    | JObj(fields: map<string, Json>)

  /** The exceptions the modelled code can raise, by their Python kind. */
  datatype Error =
    | AttributeError(attribute: string)  // e.g. `.get` on a value that is not a dict
    | TypeError(operation: string)       // e.g. iterating None, subscripting a list by a string
    | KeyError(key: string)              // `d[key]` on a dict without that key
    | UnboundLocalError(name: string)    // a local read before any branch assigned it
    | TransportError(cause: string)      // raised by the network layer

  /** `fields.get(key, default)`. */
  function GetOr(fields: map<string, Json>, key: string, default: Json): (r: Json)
    ensures key in fields ==> r == fields[key]
    ensures key !in fields ==> r == default
  {
    if key in fields then fields[key] else default
  }

  /** `fields.get(key, None)`: an absent key and a stored null both read as JNull. */
  function Get(fields: map<string, Json>, key: string): (r: Json)
    ensures key in fields ==> r == fields[key]
    ensures key !in fields ==> r == JNull
  {
    GetOr(fields, key, JNull)
  }

  /** `value[key]` with a string key: only a dict holding the key succeeds. */
  function Subscript(value: Json, key: string): (r: Result<Json, Error>)
    ensures r.Success? <==> value.JObj? && key in value.fields
    ensures r.Success? ==> r.value == value.fields[key]
    ensures value.JObj? && key !in value.fields ==> r == Failure(KeyError(key))
  {
    match value
    case JObj(fields) => if key in fields then Success(fields[key]) else Failure(KeyError(key))
    case _ => Failure(TypeError("subscript"))
  }

  /** What `for x in value` visits: a list's elements, a string's one-character
      strings. None, booleans and numbers are not iterable; a dict (whose keys
      Python would visit in insertion order) is refused because maps here are
      unordered. */
  function Elements(value: Json): (r: Result<seq<Json>, Error>)
    ensures value.JArr? ==> r == Success(value.elems)
    ensures value.JStr? ==> r.Success? && |r.value| == |value.s|
                            && forall i | 0 <= i < |value.s| :: r.value[i] == JStr([value.s[i]])
    ensures !value.JArr? && !value.JStr? ==> r.Failure?
  {
    match value
    case JArr(elems) => Success(elems)
    case JStr(s) => Success(seq(|s|, i requires 0 <= i < |s| => JStr([s[i]])))
    case _ => Failure(TypeError("iterate"))
  }

  /** The text an f-string gives for a value (`str(value)`). */
  function Display(value: Json): (r: string)
    ensures value.JNull? ==> r == "None"
    ensures value.JBool? ==> r == (if value.b then "True" else "False")
    ensures value.JStr? ==> r == value.s
    ensures value.JNum? ==> |r| >= 1 && (r[0] == '-' <==> value.n < 0)
  {
    match value
    case JNull => "None"
    case JBool(b) => if b then "True" else "False"
    case JNum(n) => if n < 0 then "-" + Decimal(-n) else Decimal(n)
    case JStr(s) => s
    case JArr(_) => "[...]"
    case JObj(_) => "{...}"
  }

  /** Decimal digits of a natural number, most significant first. */
  function Decimal(n: nat): (r: string)
    ensures |r| >= 1
    ensures forall i | 0 <= i < |r| :: '0' <= r[i] <= '9'
    ensures |r| > 1 ==> r[0] != '0'
  {
    if n < 10 then [DigitChar(n)] else Decimal(n / 10) + [DigitChar(n % 10)]
  }

  function DigitChar(d: nat): (c: char)
    requires d < 10
    ensures '0' <= c <= '9' && c as int - '0' as int == d
  {
    ['0', '1', '2', '3', '4', '5', '6', '7', '8', '9'][d]
  }

  /** The number a string of decimal digits denotes. */
  function DigitsValue(s: string): nat
    requires forall i | 0 <= i < |s| :: '0' <= s[i] <= '9'
  {
    if s == [] then 0 else DigitsValue(s[..|s| - 1]) * 10 + (s[|s| - 1] as int - '0' as int)
  }

  /** The digits `Decimal` writes denote the number written. */
  lemma {:induction false} DecimalRoundTrip(n: nat)
    ensures DigitsValue(Decimal(n)) == n
  {
    if n >= 10 {
      DecimalRoundTrip(n / 10);
      var r := Decimal(n);
      assert r[..|r| - 1] == Decimal(n / 10);
    }
  }

  /** A number's text is its sign, when negative, then the digits of its
      magnitude, which read back as that magnitude. */
  lemma DisplayNumber(n: int)
    ensures n >= 0 ==> Display(JNum(n)) == Decimal(n) && DigitsValue(Decimal(n)) == n
    ensures n < 0 ==> Display(JNum(n)) == "-" + Decimal(-n) && DigitsValue(Decimal(-n)) == -n
  {
    if n < 0 {
      var m: nat := -n;
      assert Display(JNum(n)) == "-" + Decimal(m);
      DecimalRoundTrip(m);
    } else {
      assert Display(JNum(n)) == Decimal(n);
      DecimalRoundTrip(n);
    }
  }
}
