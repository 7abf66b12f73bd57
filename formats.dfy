/** The string formats zod checks with `.email()`, `.cuid()` and
    `.datetime()`, written out as predicates over characters (the patterns of
    zod 3.22; letters are matched without regard to case, as the patterns'
    `i` flag says). */
module Formats {
  import opened Common

  predicate IsLetter(c: char) { 'a' <= c <= 'z' || 'A' <= c <= 'Z' }
  predicate IsDigit(c: char) { '0' <= c <= '9' }
  predicate IsAlnum(c: char) { IsLetter(c) || IsDigit(c) }

  /** The index of the first occurrence of `c` in `s`. */
  function IndexOf(s: string, c: char): (r: Option<nat>)
    ensures r.Some? ==> r.value < |s| && s[r.value] == c &&
                        forall i :: 0 <= i < r.value ==> s[i] != c
    ensures r.None? ==> forall i :: 0 <= i < |s| ==> s[i] != c
  {
    if s == [] then None
    else if s[0] == c then Some(0)
    else
      var rest := IndexOf(s[1..], c);
      if rest.None? then None else Some(rest.value + 1)
  }

  /** The index of the last occurrence of `c` in `s`. */
  function LastIndexOf(s: string, c: char): (r: Option<nat>)
    ensures r.Some? ==> r.value < |s| && s[r.value] == c &&
                        forall i :: r.value < i < |s| ==> s[i] != c
    ensures r.None? ==> forall i :: 0 <= i < |s| ==> s[i] != c
  {
    if s == [] then None
    else if s[|s| - 1] == c then Some(|s| - 1)
    else LastIndexOf(s[..|s| - 1], c)
  }

  // ---------------------------------------------------------------- email

  /** A character the local part may hold: `[A-Z0-9_'+\-.]`. */
  predicate LocalChar(c: char) { IsAlnum(c) || c == '_' || c == '\'' || c == '+' || c == '-' || c == '.' }

  /** The last character of the local part: `[A-Z0-9_+-]`. */
  predicate LocalEndChar(c: char) { IsAlnum(c) || c == '_' || c == '+' || c == '-' }

  predicate LocalPart(s: string) {
    |s| > 0 && s[0] != '.' && LocalEndChar(s[|s| - 1]) &&
    forall i :: 0 <= i < |s| ==> LocalChar(s[i])
  }

  /** One domain label before a dot: `[A-Z0-9][A-Z0-9\-]*`. */
  predicate Label(s: string) {
    |s| > 0 && IsAlnum(s[0]) && forall i :: 0 <= i < |s| ==> IsAlnum(s[i]) || s[i] == '-'
  }

  /** One or more labels separated by dots. */
  predicate Labels(s: string)
    decreases |s|
  {
    match IndexOf(s, '.')
    case None => Label(s)
    case Some(i) => Label(s[..i]) && Labels(s[i + 1..])
  }

  /** The domain: labels, a dot, and a top-level name of two or more letters. */
  predicate DomainPart(s: string) {
    match LastIndexOf(s, '.')
    case None => false
    case Some(j) =>
      Labels(s[..j]) && |s| - (j + 1) >= 2 && forall i :: j < i < |s| ==> IsLetter(s[i])
  }

  predicate NoDoubleDot(s: string) {
    forall i :: 0 <= i < |s| - 1 ==> !(s[i] == '.' && s[i + 1] == '.')
  }

  /** zod's `.email()`. The local part cannot hold '@' and neither can the
      domain, so the pattern splits the address at its first '@'. */
  predicate IsEmail(s: string) {
    match IndexOf(s, '@')
    case None => false
    case Some(k) => LocalPart(s[..k]) && DomainPart(s[k + 1..]) && NoDoubleDot(s)
  }

  /** The characters a valid email address is made of. */
  predicate EmailChar(c: char) { LocalChar(c) || c == '@' }

  lemma {:induction false} LabelsChars(s: string)
    requires Labels(s)
    ensures forall i :: 0 <= i < |s| ==> IsAlnum(s[i]) || s[i] == '-' || s[i] == '.'
    decreases |s|
  {
    match IndexOf(s, '.')
    case None =>
    case Some(k) =>
      LabelsChars(s[k + 1..]);
      forall i | 0 <= i < |s| ensures IsAlnum(s[i]) || s[i] == '-' || s[i] == '.' {
        if i < k { assert s[i] == s[..k][i]; }
        else if i > k { assert s[i] == s[k + 1..][i - (k + 1)]; }
      }
  }

  /** Every character of a valid email address is a letter, a digit or one of
      `_ ' + - . @`. */
  lemma EmailChars(s: string)
    requires IsEmail(s)
    ensures forall i :: 0 <= i < |s| ==> EmailChar(s[i])
  {
    var k := IndexOf(s, '@').value;
    var d := s[k + 1..];
    var j := LastIndexOf(d, '.').value;
    LabelsChars(d[..j]);
    forall i | 0 <= i < |s| ensures EmailChar(s[i]) {
      if i < k {
        assert s[i] == s[..k][i];
      } else if i > k {
        var m := i - (k + 1);
        assert s[i] == d[m];
        if m < j { assert d[m] == d[..j][m]; }
      }
    }
  }

  // ----------------------------------------------------------------- cuid

  /** `\s` in a JavaScript regular expression. */
  predicate IsJsWhitespace(c: char) {
    var n := c as int;
    (9 <= n <= 13) || n == 0x20 || n == 0xA0 || n == 0x1680 || (0x2000 <= n <= 0x200A) ||
    n == 0x2028 || n == 0x2029 || n == 0x202F || n == 0x205F || n == 0x3000 || n == 0xFEFF
  }

  /** zod's `.cuid()`: a 'c' followed by characters that are neither
      whitespace nor '-' and take at least eight UTF-16 units (the pattern has
      no `u` flag, so a character outside the Basic Multilingual Plane counts
      twice). */
  predicate IsCuid(s: string) {
    |s| >= 1 && JsLength(s) >= 9 && (s[0] == 'c' || s[0] == 'C') &&
    forall i :: 1 <= i < |s| ==> !IsJsWhitespace(s[i]) && s[i] != '-'
  }

  // ------------------------------------------------------------- datetime

  predicate DigitsAt(s: string, from: nat, to: nat)
    requires from <= to <= |s|
  {
    forall i :: from <= i < to ==> IsDigit(s[i])
  }

  /** zod's `.datetime()` with its default options:
      `YYYY-MM-DDTHH:MM:SS`, optional fraction `.d+`, then `Z` -- the text
      `JSON.stringify` gives a JavaScript Date. */
  predicate IsIsoDateTime(s: string) {
    |s| >= 20 &&
    DigitsAt(s, 0, 4) && s[4] == '-' && DigitsAt(s, 5, 7) && s[7] == '-' && DigitsAt(s, 8, 10) &&
    s[10] == 'T' && DigitsAt(s, 11, 13) && s[13] == ':' && DigitsAt(s, 14, 16) && s[16] == ':' &&
    DigitsAt(s, 17, 19) && s[|s| - 1] == 'Z' &&
    (|s| == 20 || (|s| >= 22 && s[19] == '.' && DigitsAt(s, 20, |s| - 1)))
  }
}
