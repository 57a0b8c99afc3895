/** JavaScript value semantics the three services rely on: optional values,
    truthiness of strings and numbers, `||` defaults, template rendering of
    numbers, and the Firebase `HttpsError` next to plain thrown errors. */
module Runtime {

  datatype Option<T> = None | Some(value: T)

  /** Either a returned value or a thrown error (the `async` function's promise). */
  datatype Outcome<T> = Ok(value: T) | Throw(error: Error)

  /** The codes the core throws `functions.https.HttpsError` with. */
  datatype ErrorCode = InvalidArgument | Unauthenticated | FailedPrecondition | Internal

  function CodeName(c: ErrorCode): string
  {
    match c
    case InvalidArgument => "invalid-argument"
    case Unauthenticated => "unauthenticated"
    case FailedPrecondition => "failed-precondition"
    case Internal => "internal"
  }

  /** A thrown value: an `HttpsError`, or any other error whose `message` may be undefined. */
  datatype Error =
    | HttpsError(code: ErrorCode, message: string)
    | PlainError(text: Option<string>)

  /** `error.message` */
  function MessageOf(e: Error): Option<string>
  {
    match e
    case HttpsError(_, m) => Some(m)
    case PlainError(t) => t
  }

  /** `${x}` for a string that may be undefined. */
  function Interpolate(s: Option<string>): string
  {
    if s.Some? then s.value else "undefined"
  }

  /** A string is truthy when it is present and not empty. */
  predicate Truthy(s: Option<string>)
  {
    s.Some? && s.value != ""
  }

  /** `s || d` on an optional string. */
  function Or(s: Option<string>, d: string): string
  {
    if Truthy(s) then s.value else d
  }

  /** `s || null` on an optional string: a falsy value is stored as null (None). */
  function OrNull(s: Option<string>): Option<string>
  {
    if Truthy(s) then s else None
  }

  /** `n || d` on an optional number: undefined and 0 are falsy. */
  function NumberOr(n: Option<int>, d: int): int
  {
    if n.Some? && n.value != 0 then n.value else d
  }

  function Min(a: int, b: int): int { if a <= b then a else b }
  function Max(a: int, b: int): int { if a >= b then a else b }

  predicate IsDigit(c: char) { '0' <= c <= '9' }

  function DigitChar(d: nat): (c: char)
    requires d < 10
    ensures IsDigit(c)
  {
    ('0' as int + d) as char
  }

  function DigitValue(c: char): (d: nat)
    requires IsDigit(c)
    ensures d < 10
  {
    c as int - '0' as int
  }

  /** The decimal text JavaScript gives a non-negative integer in a template. */
  function NatToString(n: nat): (s: string)
    ensures |s| >= 1
    ensures forall i :: 0 <= i < |s| ==> IsDigit(s[i])
  {
    if n < 10 then [DigitChar(n)] else NatToString(n / 10) + [DigitChar(n % 10)]
  }

  /** Reads a string of decimal digits back as a number. */
  function ParseDecimal(s: string): nat
    requires forall i :: 0 <= i < |s| ==> IsDigit(s[i])
  {
    if |s| == 0 then 0 else ParseDecimal(s[..|s| - 1]) * 10 + DigitValue(s[|s| - 1])
  }

  lemma {:induction false} ParseNatToString(n: nat)
    ensures ParseDecimal(NatToString(n)) == n
  {
    var s := NatToString(n);
    if n >= 10 {
      ParseNatToString(n / 10);
      assert s[..|s| - 1] == NatToString(n / 10);
    }
  }

  /** Distinct numbers render as distinct decimal strings. */
  lemma NatToStringInjective(m: nat, n: nat)
    ensures NatToString(m) == NatToString(n) <==> m == n
  {
    ParseNatToString(m);
    ParseNatToString(n);
  }

  /** Equal strings with a common prefix and suffix have equal middles. */
  lemma CancelAffixes(p: string, a: string, b: string, q: string)
    requires p + a + q == p + b + q
    ensures a == b
  {
    var s := p + a + q;
    assert |a| == |b|;
    assert a == s[|p|..|p| + |a|];
    assert b == (p + b + q)[|p|..|p| + |b|];
  }

  /** The same `x` repeated `n` times. */
  function Repeat<T>(x: T, n: nat): (r: seq<T>)
    ensures |r| == n
    ensures forall i :: 0 <= i < n ==> r[i] == x
  {
    if n == 0 then [] else Repeat(x, n - 1) + [x]
  }
}
