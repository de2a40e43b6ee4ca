/** The few JavaScript values the client handles: optional values, how a
    call ends (a value or a thrown error), plain string-keyed objects, and
    the decimal rendering of numbers. */
module JsValues {

  datatype Option<+T> = None | Some(value: T)

  /** The errors the client can surface: a TypeError from destructuring or
      calling a method on `undefined`, the RangeError of credential
      validation, and a rejection by the transport. */
  datatype Error = TypeError | RangeError | NetworkError

  /** How a JavaScript call completes: it returns a value or it throws. */
  datatype Completion<+T> = Returned(value: T) | Threw(error: Error)

  /** An argument as JavaScript sees it: a string, `undefined`, or some
      other value (null, a number, an object without string methods). */
  datatype Arg = Str(s: string) | Undef | NonString

  /** A plain object whose properties hold strings, in insertion order
      (a regular expression's named groups, a decoded CSV row). */
  type Record = seq<(string, string)>

  /** The value of property `key`, or None when the object has no such
      property (JavaScript's `undefined`). */
  function Lookup(r: Record, key: string): (v: Option<string>)
    ensures v.Some? <==> exists i :: 0 <= i < |r| && r[i].0 == key
    ensures v.Some? ==> exists i :: 0 <= i < |r| && r[i] == (key, v.value)
  {
    if r == [] then None
    else if r[0].0 == key then Some(r[0].1)
    else Lookup(r[1..], key)
  }

  /** The property names of an object, in order (`Object.keys`). */
  function Keys(r: Record): (ks: seq<string>)
    ensures |ks| == |r|
    ensures forall i :: 0 <= i < |r| ==> ks[i] == r[i].0
  {
    if r == [] then [] else [r[0].0] + Keys(r[1..])
  }

  function DigitChar(d: nat): char
    requires d < 10
  {
    "0123456789"[d]
  }

  /** The decimal digits of a natural number, most significant first. */
  function Digits(n: nat): (s: string)
    ensures |s| >= 1
    ensures forall i :: 0 <= i < |s| ==> '0' <= s[i] <= '9'
  {
    if n < 10 then [DigitChar(n)] else Digits(n / 10) + [DigitChar(n % 10)]
  }

  /** How JavaScript writes an integer as text (`String(n)`). */
  function Decimal(n: int): string
  {
    if n < 0 then "-" + Digits(-n) else Digits(n)
  }
}
