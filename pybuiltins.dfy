/** The few Python runtime notions the webhook core relies on: optional values,
    exceptions and the outcome of a call that may raise, `str.strip` and `str(int)`. */
module PyBuiltins {

  datatype Option<+T> = None | Some(value: T)

  /** The exceptions that can reach the code modelled here. */
  datatype Exception =
    | TypeError(message: string)
    | ValueError(message: string)          // json.JSONDecodeError is a ValueError
    | IndexError(message: string)
    | AssertionError
    | ValidationError(message: string)     // zope.schema's, raised by validate_payload
    | Invalid(cause: Exception)            // zope.interface's, raised by PayloadValidator
    | OtherError(name: string, message: string)
      // any other subclass of Exception a callback may raise
    | NonError(name: string)
      // SystemExit, KeyboardInterrupt, GeneratorExit: BaseException but not Exception

  /** Whether `except Exception` catches `e`. */
  predicate IsException(e: Exception)
    ensures IsException(e) <==>
      || e.TypeError? || e.ValueError? || e.IndexError? || e.AssertionError?
      || e.ValidationError? || e.Invalid? || e.OtherError?
  {
    !e.NonError?
  }

  /** The text the exception carries (for ValidationError, its class `__doc__`). */
  function Message(e: Exception): string {
    match e
    case TypeError(m) => m
    case ValueError(m) => m
    case IndexError(m) => m
    case AssertionError => ""
    case ValidationError(m) => m
    case Invalid(c) => Message(c)
    case OtherError(_, m) => m
    case NonError(_) => ""
  }

  /** What a Python call does: return a value or raise. */
  datatype Outcome<+T> = Returned(value: T) | Raised(exc: Exception)

  // ---------------------------------------------------------------- str.strip

  /** The characters `str.isspace()` accepts, which `str.strip()` with no
      argument removes. */
  predicate IsSpace(c: char)
    ensures c as int < 0x80 ==>
      (IsSpace(c) <==> c in {' ', '\t', '\n', '\r', '\U{0B}', '\U{0C}', '\U{1C}', '\U{1D}', '\U{1E}', '\U{1F}'})
    ensures IsSpace(c) ==> !IsQuote(c)
  {
    || (0x09 <= c as int <= 0x0D)
    || (0x1C <= c as int <= 0x20)
    || c as int == 0x85 || c as int == 0xA0 || c as int == 0x1680
    || (0x2000 <= c as int <= 0x200A)
    || c as int == 0x2028 || c as int == 0x2029 || c as int == 0x202F
    || c as int == 0x205F || c as int == 0x3000
  }

  /** The argument of `.strip('"')`. */
  predicate IsQuote(c: char) {
    c == '"'
  }

  /** No dropped character at either end. */
  predicate IsStripped(s: string, drop: char -> bool) {
    s == [] || (!drop(s[0]) && !drop(s[|s| - 1]))
  }

  /** Scanning forward from `i`, the first position whose character is kept
      (or the end). */
  function SkipForward(s: string, drop: char -> bool, i: nat): (n: nat)
    requires i <= |s|
    ensures i <= n <= |s|
    ensures forall k :: i <= k < n ==> drop(s[k])
    ensures n == |s| || !drop(s[n])
    decreases |s| - i
  {
    if i == |s| || !drop(s[i]) then i else SkipForward(s, drop, i + 1)
  }

  /** Scanning backward from `j`, but not below `lo`, the end of the last kept
      character (or `lo`). */
  function SkipBackward(s: string, drop: char -> bool, lo: nat, j: nat): (n: nat)
    requires lo <= j <= |s|
    ensures lo <= n <= j
    ensures forall k :: n <= k < j ==> drop(s[k])
    ensures n == lo || !drop(s[n - 1])
    decreases j
  {
    if j == lo || !drop(s[j - 1]) then j else SkipBackward(s, drop, lo, j - 1)
  }

  /** Where the result of `s.strip(chars)` starts in `s`. */
  function StripStart(s: string, drop: char -> bool): nat
  {
    SkipForward(s, drop, 0)
  }

  /** Where the result of `s.strip(chars)` ends in `s`. */
  function StripEnd(s: string, drop: char -> bool): nat
  {
    SkipBackward(s, drop, StripStart(s, drop), |s|)
  }

  /** `s.strip(chars)`: `s` without its leading and trailing dropped characters,
      found as CPython does, by skipping them from the front and then from the
      back. */
  function Strip(s: string, drop: char -> bool): (r: string)
    ensures IsStripped(r, drop)
    ensures |r| <= |s|
  {
    s[StripStart(s, drop)..StripEnd(s, drop)]
  }

  /** What `Strip` removes is dropped characters only, from either end. */
  lemma StripInfix(s: string, drop: char -> bool)
    ensures var i, j := StripStart(s, drop), StripEnd(s, drop);
      && i <= j <= |s| && Strip(s, drop) == s[i..j]
      && (forall k :: 0 <= k < i ==> drop(s[k]))
      && (forall k :: j <= k < |s| ==> drop(s[k]))
  {
  }

  /** A stripped string is its own strip. */
  lemma StripOfStripped(s: string, drop: char -> bool)
    requires IsStripped(s, drop)
    ensures Strip(s, drop) == s
  {
    assert StripStart(s, drop) == 0;
    assert StripEnd(s, drop) == |s|;
  }

  /** Stripping twice is stripping once. */
  lemma StripIdempotent(s: string, drop: char -> bool)
    ensures Strip(Strip(s, drop), drop) == Strip(s, drop)
  {
    StripOfStripped(Strip(s, drop), drop);
  }

  /** Any split of `s` into dropped characters, a middle with kept characters
      at both ends, and dropped characters is the one `Strip` finds. */
  lemma StripUnique(s: string, drop: char -> bool, i: nat, j: nat)
    requires i < j <= |s|
    requires forall k :: 0 <= k < i ==> drop(s[k])
    requires forall k :: j <= k < |s| ==> drop(s[k])
    requires !drop(s[i]) && !drop(s[j - 1])
    ensures Strip(s, drop) == s[i..j]
  {
    assert StripStart(s, drop) == i;
    assert StripEnd(s, drop) == j;
  }

  // ------------------------------------------------------------------ str(int)

  function DigitChar(d: nat): (c: char)
    requires d < 10
    ensures '0' <= c <= '9' && c as int - '0' as int == d
  {
    ('0' as int + d) as char
  }

  predicate IsDigit(c: char) {
    '0' <= c <= '9'
  }

  /** `str(n)` for a non-negative integer: its decimal digits, no leading zero. */
  function Decimal(n: nat): (r: string)
    ensures |r| >= 1 && forall k :: 0 <= k < |r| ==> IsDigit(r[k])
    ensures r[0] == '0' ==> n == 0 && r == "0"
  {
    if n < 10 then [DigitChar(n)] else Decimal(n / 10) + [DigitChar(n % 10)]
  }

  /** `int(s)` for a string of decimal digits. */
  function DecimalValue(s: string): nat
    requires forall k :: 0 <= k < |s| ==> IsDigit(s[k])
  {
    if s == [] then 0
    else assert IsDigit(s[|s| - 1]); DecimalValue(s[..|s| - 1]) * 10 + (s[|s| - 1] as int - '0' as int)
  }

  /** `int(str(n)) == n`. */
  lemma {:induction false} DecimalRoundTrip(n: nat)
    ensures DecimalValue(Decimal(n)) == n
  {
    if n >= 10 {
      var r := Decimal(n);
      assert r[..|r| - 1] == Decimal(n / 10);
      DecimalRoundTrip(n / 10);
    }
  }

  /** Distinct integers have distinct decimal renderings. */
  lemma DecimalInjective(m: nat, n: nat)
    requires m != n
    ensures Decimal(m) != Decimal(n)
  {
    DecimalRoundTrip(m);
    DecimalRoundTrip(n);
  }
}
