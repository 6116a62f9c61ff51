/** The JavaScript values that reach the application from request bodies, form fields and
    language-model replies, with JavaScript's notion of truthiness. */
module Json {
  import opened Wrappers

  /** A property value. Arrays are arrays of strings, the only arrays the job schema holds;
      numbers are integers. */
  datatype Value =
    | Undefined
    | Null
    | Bool(b: bool)
    | Num(n: int)
    | Str(s: string)
    | Arr(items: seq<string>)

  /** `!!v`: `undefined`, `null`, `false`, `0` and `""` are falsy; every array is truthy,
      the empty one included. */
  predicate Truthy(v: Value) {
    match v
    case Undefined => false
    case Null => false
    case Bool(b) => b
    case Num(n) => n != 0
    case Str(s) => s != ""
    case Arr(_) => true
  }

  /** The character of a decimal digit. */
  function DigitChar(d: nat): char
    requires d < 10
  {
    ('0' as int + d) as char
  }

  /** The decimal digits of `n`, most significant first, without leading zeros. */
  function Digits(n: nat): (r: string)
    ensures r != []
    ensures forall i | 0 <= i < |r| :: '0' <= r[i] <= '9'
    ensures |r| > 1 ==> r[0] != '0'
  {
    if n < 10 then [DigitChar(n)] else Digits(n / 10) + [DigitChar(n % 10)]
  }

  /** The number a string of decimal digits denotes. */
  function DigitsValue(s: string): nat
    requires forall i | 0 <= i < |s| :: '0' <= s[i] <= '9'
  {
    if s == [] then 0 else DigitsValue(s[..|s| - 1]) * 10 + (s[|s| - 1] as int - '0' as int)
  }

  /** Reading the digits of `n` gives `n` back. */
  lemma {:induction false} DigitsRoundTrip(n: nat)
    ensures DigitsValue(Digits(n)) == n
  {
    if n >= 10 {
      var r := Digits(n);
      assert r[..|r| - 1] == Digits(n / 10);
      DigitsRoundTrip(n / 10);
    }
  }

  /** `String(n)` for an integer: its decimal digits, after a `-` when it is negative. */
  function Decimal(n: int): (r: string)
    ensures r != []
    ensures n >= 0 ==> r == Digits(n)
    ensures n < 0 ==> r[0] == '-' && r[1..] == Digits(-n)
  {
    if n >= 0 then Digits(n) else "-" + Digits(-n)
  }

  /** Distinct integers are spelt differently. */
  lemma DecimalInjective(m: int, n: int)
    requires Decimal(m) == Decimal(n)
    ensures m == n
  {
    if m >= 0 && n >= 0 {
      DigitsRoundTrip(m);
      DigitsRoundTrip(n);
    } else if m < 0 && n < 0 {
      assert Digits(-m) == Decimal(m)[1..] == Decimal(n)[1..] == Digits(-n);
      DigitsRoundTrip(-m);
      DigitsRoundTrip(-n);
    }
  }

  /** `String(v)` for the values a string cast converts: a string as it is, a number in
      decimal, a boolean as `true` or `false`. `undefined`, `null` and arrays have none. */
  function Spelling(v: Value): Option<string> {
    match v
    case Str(s) => Some(s)
    case Num(n) => Some(Decimal(n))
    case Bool(b) => Some(if b then "true" else "false")
    case _ => None
  }

  /** A plain object: its own enumerable properties. */
  type Object = map<string, Value>

  /** `o[key]`: a missing property reads as `undefined`. */
  function Get(o: Object, key: string): Value {
    if key in o then o[key] else Undefined
  }

  /** A parsed JSON document. Reading a named property of anything but an object gives
      `undefined`, and of `null` throws a `TypeError`. */
  datatype Document =
    | NullDoc
    | NonObjectDoc   // a number, string, boolean or array
    | ObjectDoc(fields: Object)
}
