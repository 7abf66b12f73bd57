/** Small helpers shared by every module of the model: an Option type that
    works with `:-`, string length as JavaScript counts it, substring search
    and the truthiness of an optional query parameter. */
module Common {

  datatype Option<+T> = None | Some(value: T) {
    predicate IsFailure() { None? }

    function PropagateFailure<U>(): Option<U>
      requires None?
    {
      None
    }

    function Extract(): T
      requires Some?
    {
      value
    }
  }

  /** `s.length` in JavaScript: the number of UTF-16 code units, so a
      character outside the Basic Multilingual Plane counts twice. */
  function JsLength(s: string): (n: nat)
    ensures |s| <= n <= 2 * |s|
    ensures (forall i :: 0 <= i < |s| ==> s[i] as int <= 0xFFFF) ==> n == |s|
  {
    if s == [] then 0
    else (if s[0] as int > 0xFFFF then 2 else 1) + JsLength(s[1..])
  }

  /** `q` is a prefix of `s`. */
  predicate StartsWith(s: string, q: string) {
    |q| <= |s| && s[..|q|] == q
  }

  /** `q` occurs in `s` as a contiguous substring (a case-sensitive `contains`). */
  predicate Contains(s: string, q: string)
    decreases |s|
  {
    StartsWith(s, q) || (s != [] && Contains(s[1..], q))
  }

  /** A query parameter is truthy in JavaScript when it is present and not
      the empty string. */
  predicate Given(p: Option<string>) {
    p.Some? && p.value != ""
  }
}
