/** Shared value types and string helpers used by every other module:
    optional values and results, the JSON values a request body carries,
    Python truthiness, the `re.sub(r'[^0-9]', '', s)` digit filter, ASCII
    lower-casing, substring search and decimal rendering of naturals. */
module Common {

  datatype Option<+T> = None | Some(value: T)

  datatype Result<+T, +E> = Ok(value: T) | Err(error: E)

  /** A JSON value as Flask's `request.get_json()` hands it to a handler.
      Numbers are modelled as integers; arrays and objects are not modelled. */
  datatype Json = JNull | JBool(b: bool) | JInt(i: int) | JText(s: string)

  /** Python truthiness of a JSON value (`if not data.get(campo)`). */
  predicate Truthy(v: Json) {
    match v
    case JNull => false
    case JBool(b) => b
    case JInt(i) => i != 0
    case JText(s) => s != ""
  }

  /** `data.get(key)`: None when the key is absent. */
  function Get(data: map<string, Json>, key: string): Json {
    if key in data then data[key] else JNull
  }

  /** `data.get(key, default)`. */
  function GetOr(data: map<string, Json>, key: string, default: Json): Json {
    if key in data then data[key] else default
  }

  predicate IsDigit(c: char) { '0' <= c <= '9' }

  predicate AllDigits(s: string) { forall i :: 0 <= i < |s| ==> IsDigit(s[i]) }

  function DigitValue(c: char): (d: nat)
    requires IsDigit(c)
    ensures d <= 9
  {
    (c as int - '0' as int) as nat
  }

  function DigitChar(d: nat): (c: char)
    requires d <= 9
    ensures IsDigit(c) && DigitValue(c) == d
  {
    ('0' as int + d) as char
  }

  /** `re.sub(r'[^0-9]', '', s)`: the ASCII digits of `s`, in order. */
  function DigitsOnly(s: string): (r: string)
    ensures AllDigits(r)
    ensures |r| <= |s|
  {
    if s == [] then []
    else if IsDigit(s[0]) then [s[0]] + DigitsOnly(s[1..])
    else DigitsOnly(s[1..])
  }

  /** Filtering digits twice changes nothing. */
  lemma {:induction false} DigitsOnlyIdempotent(s: string)
    ensures DigitsOnly(DigitsOnly(s)) == DigitsOnly(s)
  {
    if s != [] {
      DigitsOnlyIdempotent(s[1..]);
      if IsDigit(s[0]) {
        assert ([s[0]] + DigitsOnly(s[1..]))[1..] == DigitsOnly(s[1..]);
      }
    }
  }

  /** A string made of digits only is its own digit filter. */
  lemma {:induction false} DigitsOnlyOfDigits(s: string)
    requires AllDigits(s)
    ensures DigitsOnly(s) == s
  {
    if s != [] {
      DigitsOnlyOfDigits(s[1..]);
    }
  }

  /** ASCII lower-casing (the model's stand-in for `str.lower()` / SQL ILIKE folding). */
  function LowerChar(c: char): char {
    if 'A' <= c <= 'Z' then (c as int + 32) as char else c
  }

  function Lower(s: string): (r: string)
    ensures |r| == |s|
    ensures forall i :: 0 <= i < |s| ==> r[i] == LowerChar(s[i])
  {
    if s == [] then [] else [LowerChar(s[0])] + Lower(s[1..])
  }

  /** Text with no upper-case ASCII letter is its own lower-casing. */
  lemma LowerOfLower(s: string)
    requires forall i :: 0 <= i < |s| ==> !('A' <= s[i] <= 'Z')
    ensures Lower(s) == s
  {
  }

  predicate IsPrefix(p: string, s: string) {
    |p| <= |s| && s[..|p|] == p
  }

  /** `needle` occurs somewhere in `hay` (SQL `LIKE '%needle%'`). */
  predicate Contains(hay: string, needle: string)
    decreases |hay|
  {
    IsPrefix(needle, hay) || (hay != [] && Contains(hay[1..], needle))
  }

  /** Case-insensitive containment (SQL `ILIKE '%needle%'`, ASCII folding). */
  predicate ContainsIgnoreCase(hay: string, needle: string) {
    Contains(Lower(hay), Lower(needle))
  }

  /** Decimal rendering of a natural number without leading zeros (`str(n)`). */
  function NatToDecimal(n: nat): (r: string)
    ensures |r| >= 1 && AllDigits(r)
    decreases n
  {
    if n < 10 then [DigitChar(n)] else NatToDecimal(n / 10) + [DigitChar(n % 10)]
  }

  /** The value of a digit string (`int(s)` for plain digit strings). */
  function DecimalValue(s: string): (n: nat)
    requires AllDigits(s)
    decreases |s|
  {
    if s == [] then 0 else 10 * DecimalValue(s[..|s| - 1]) + DigitValue(s[|s| - 1])
  }

  /** Reading back a rendered natural gives the natural. */
  lemma {:induction false} DecimalOfNatToDecimal(n: nat)
    ensures DecimalValue(NatToDecimal(n)) == n
    decreases n
  {
    if n >= 10 {
      DecimalOfNatToDecimal(n / 10);
      var s := NatToDecimal(n / 10) + [DigitChar(n % 10)];
      assert s[..|s| - 1] == NatToDecimal(n / 10);
    }
  }

  /** The text stored for a JSON value: text as is, other scalars as Python's
      `str()` renders them, and null as the empty text. */
  function AsText(v: Json): string {
    match v
    case JNull => ""
    case JBool(b) => if b then "True" else "False"
    case JInt(i) => if i < 0 then "-" + NatToDecimal(-i) else NatToDecimal(i)
    case JText(s) => s
  }

  /** Multiplying by the same natural keeps the order. */
  lemma MultiplicacaoMonotona(a: nat, b: nat, p: nat)
    requires a <= b
    ensures a * p <= b * p
  {
  }
}
