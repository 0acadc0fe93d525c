/** The few pieces of JavaScript value semantics that the route handlers and
    the history store rely on: optional values, truthiness of strings, thrown
    values and the message a catch block extracts from them, String.prototype
    trim and substring, the decimal rendering of a number inside a template
    literal, and the `ok` flag of a fetch Response. */
module Web {

  /** A value that may be `undefined`/`null` (None) or present. */
  datatype Option<T> = None | Some(value: T)

  /** What a JavaScript `catch (error)` receives: an `Error` instance with its
      message, or any other thrown value. */
  datatype Thrown = ErrorInstance(message: string) | OtherValue

  /** The result of a step that may throw: a returned value, or a thrown one. */
  datatype Outcome<T> = Returned(value: T) | Threw(thrown: Thrown)

  /** `!x` is false exactly for a present, non-empty string. */
  predicate Truthy(v: Option<string>) {
    v.Some? && v.value != ""
  }

  /** `x || ""` for an optional string. */
  function OrEmpty(v: Option<string>): string {
    if Truthy(v) then v.value else ""
  }

  /** `error instanceof Error ? error.message : "Unknown error"` */
  function ErrorMessage(t: Thrown): string {
    match t
    case ErrorInstance(message) => message
    case OtherValue => "Unknown error"
  }

  /** The characters String.prototype.trim removes: ECMAScript WhiteSpace
      and LineTerminator code points. */
  predicate IsTrimmable(c: char) {
    var k := c as int;
    k == 0x09 || k == 0x0A || k == 0x0B || k == 0x0C || k == 0x0D || k == 0x20 ||
    k == 0xA0 || k == 0x1680 || (0x2000 <= k <= 0x200A) || k == 0x2028 ||
    k == 0x2029 || k == 0x202F || k == 0x205F || k == 0x3000 || k == 0xFEFF
  }

  /** `!s || s.trim() === ""`: the string is empty or only whitespace. */
  predicate IsBlank(s: string) {
    forall i :: 0 <= i < |s| ==> IsTrimmable(s[i])
  }

  /** `s.substring(0, n)` for n >= 0: the first n characters, or all of s. */
  function Substring(s: string, n: nat): (r: string)
    ensures |r| == if |s| <= n then |s| else n
    ensures r <= s
  {
    if |s| <= n then s else s[..n]
  }

  /** fetch's `response.ok`: the status is in the range 200-299. */
  predicate IsOk(status: nat) {
    200 <= status <= 299
  }

  predicate IsDigit(c: char) {
    '0' <= c <= '9'
  }

  predicate AllDigits(s: string) {
    forall i :: 0 <= i < |s| ==> IsDigit(s[i])
  }

  function DigitChar(d: nat): (c: char)
    requires d < 10
    ensures IsDigit(c)
  {
    ['0', '1', '2', '3', '4', '5', '6', '7', '8', '9'][d]
  }

  function DigitValue(c: char): (d: nat)
    requires IsDigit(c)
    ensures d < 10
  {
    (c as int - '0' as int) as nat
  }

  /** `${n}` for a natural number: its decimal digits, most significant
      first, with no leading zero. */
  function Decimal(n: nat): (s: string)
    ensures |s| >= 1 && AllDigits(s)
    ensures |s| > 1 ==> s[0] != '0'
  {
    if n < 10 then [DigitChar(n)] else Decimal(n / 10) + [DigitChar(n % 10)]
  }

  /** The number a string of decimal digits denotes. */
  function ParseDecimal(s: string): nat
    requires AllDigits(s)
  {
    if s == [] then 0 else 10 * ParseDecimal(s[..|s| - 1]) + DigitValue(s[|s| - 1])
  }

  lemma DigitRoundTrip(d: nat)
    requires d < 10
    ensures DigitValue(DigitChar(d)) == d
  {
  }

  /** The number embedded in a message by a template literal can be read
      back from its digits. */
  lemma {:induction false} DecimalRoundTrip(n: nat)
    ensures ParseDecimal(Decimal(n)) == n
  {
    var s := Decimal(n);
    if n < 10 {
      DigitRoundTrip(n);
      assert s[..0] == [];
    } else {
      DecimalRoundTrip(n / 10);
      DigitRoundTrip(n % 10);
      assert s[..|s| - 1] == Decimal(n / 10);
    }
  }
}
