/** Small helpers shared by every part of the model. */
module Common {

  /** A value that may be absent: a nullable reference, or a query that found nothing. */
  datatype Option<+T> = None | Some(value: T)

  /** The characters .NET's Char.IsWhiteSpace accepts: the space separators, the line and
      paragraph separators, and the control characters U+0009..U+000D and U+0085. */
  predicate IsWhiteSpace(c: char)
  {
    c == ' ' || ('\t' <= c <= '\r') || c == '\U{85}' || c == '\U{A0}' || c == '\U{1680}'
    || ('\U{2000}' <= c <= '\U{200A}') || c == '\U{2028}' || c == '\U{2029}'
    || c == '\U{202F}' || c == '\U{205F}' || c == '\U{3000}'
  }

  /** string.IsNullOrWhiteSpace; the same test [Required] applies to a string property. */
  predicate IsNullOrWhiteSpace(s: Option<string>)
  {
    s.None? || forall i :: 0 <= i < |s.value| ==> IsWhiteSpace(s.value[i])
  }

  /** `r` is `s` with the element at index `i` taken out: earlier elements stay where they were
      and later ones move down by one. */
  predicate RemovedAt<T(==)>(s: seq<T>, i: nat, r: seq<T>)
  {
    && i < |s| && |r| == |s| - 1
    && (forall k :: 0 <= k < i ==> r[k] == s[k])
    && (forall k :: i <= k < |r| ==> r[k] == s[k + 1])
  }

  /** A sequence with the element at index i taken out (List.Remove of a found row). */
  function RemoveAt<T>(s: seq<T>, i: nat): (r: seq<T>)
    requires i < |s|
    ensures |r| == |s| - 1
    ensures forall k :: 0 <= k < i ==> r[k] == s[k]
    ensures forall k :: i <= k < |r| ==> r[k] == s[k + 1]
  {
    s[..i] + s[i + 1..]
  }

  function DigitChar(d: nat): char
    requires d < 10
  {
    "0123456789"[d]
  }

  /** Decimal text of a natural number, most significant digit first. */
  function NatToDecimal(n: nat): (s: string)
    ensures |s| >= 1
    ensures forall i :: 0 <= i < |s| ==> '0' <= s[i] <= '9'
  {
    if n < 10 then [DigitChar(n)] else NatToDecimal(n / 10) + [DigitChar(n % 10)]
  }

  /** int.ToString() under the invariant culture: a leading '-' for negative numbers. */
  function IntToDecimal(n: int): string
  {
    if n < 0 then "-" + NatToDecimal(-n) else NatToDecimal(n)
  }
}
