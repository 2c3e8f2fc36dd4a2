/** The small pieces of JavaScript semantics the core leans on: `Error`
    objects and the `instanceof Error` normalisation, how a template
    literal renders a number, and `Array.prototype.slice(0, end)`. */
module JsRuntime {
  import opened Wrappers

  /** An `Error` instance; only its message is observable here. */
  datatype JsError = JsError(message: string)

  /** A value a rejected promise carries: an `Error` instance or anything else. */
  datatype Thrown = ErrorInstance(err: JsError) | NonError

  const UnknownErrorMessage: string := "未知錯誤"

  /** `err instanceof Error ? err : new Error('未知錯誤')`. */
  function Normalize(t: Thrown): (e: JsError)
    ensures t.ErrorInstance? ==> e == t.err
    ensures t.NonError? ==> e.message == UnknownErrorMessage
  {
    match t
    case ErrorInstance(err) => err
    case NonError => JsError(UnknownErrorMessage)
  }

  predicate IsDigit(c: char) { '0' <= c <= '9' }

  function DigitChar(d: nat): (c: char)
    requires d < 10
    ensures IsDigit(c)
  {
    (48 + d) as char
  }

  function DigitValue(c: char): (d: nat)
    requires IsDigit(c)
    ensures d < 10
  {
    (c as int) - 48
  }

  /** The decimal text `${n}` produces for a non-negative integer. */
  function NatToString(n: nat): (s: string)
    ensures |s| > 0
    ensures forall i :: 0 <= i < |s| ==> IsDigit(s[i])
  {
    if n < 10 then [DigitChar(n)] else NatToString(n / 10) + [DigitChar(n % 10)]
  }

  /** The decimal text `${i}` produces for an integer. */
  function IntToString(i: int): (s: string)
    ensures |s| > 0
    ensures s[0] == '-' <==> i < 0
  {
    if i < 0 then "-" + NatToString(-i) else NatToString(i)
  }

  /** Reads a string of decimal digits back as a number. */
  function ParseNat(s: string): nat
    requires forall i :: 0 <= i < |s| ==> IsDigit(s[i])
  {
    if s == [] then 0 else 10 * ParseNat(s[..|s| - 1]) + DigitValue(s[|s| - 1])
  }

  lemma {:induction false} ParseNatToString(n: nat)
    ensures ParseNat(NatToString(n)) == n
  {
    if n >= 10 {
      var init := NatToString(n / 10);
      ParseNatToString(n / 10);
      assert (init + [DigitChar(n % 10)])[..|init|] == init;
    }
  }

  /** Different numbers render to different texts. */
  lemma NatToStringInjective(m: nat, n: nat)
    requires NatToString(m) == NatToString(n)
    ensures m == n
  {
    ParseNatToString(m);
    ParseNatToString(n);
  }

  /** `s.slice(0, end)` for an integer `end`: a negative end counts from
      the back, an end past the length stops at the length. */
  function SliceTo<T>(s: seq<T>, end: int): (r: seq<T>)
    ensures r <= s
    ensures end >= 0 ==> |r| == Min(end, |s|)
    ensures end < 0 ==> |r| == if |s| + end < 0 then 0 else |s| + end
  {
    if end >= 0 then s[..Min(end, |s|)]
    else if |s| + end < 0 then []
    else s[..|s| + end]
  }
}
