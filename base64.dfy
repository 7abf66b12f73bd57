/** Base 64 as section 4 of RFC 4648 defines it, in the two forms the browser
    and the server use: `btoa` (encode a string whose characters are all
    below 256, padded with '=') and `atob` (the "forgiving" decoder: ASCII
    white space is dropped, one or two '=' at the end are optional, and the
    unused low bits of the last character are ignored). */
module Base64 {
  import opened Common

  type Byte = x: int | 0 <= x < 256
  type Sextet = x: int | 0 <= x < 64

  /** The character that stands for a 6-bit value (Table 1 of RFC 4648). */
  function CharOf(v: Sextet): (c: char)
    ensures c != '=' && (c as int) < 128
  {
    if v < 26 then ('A' as int + v) as char
    else if v < 52 then ('a' as int + (v - 26)) as char
    else if v < 62 then ('0' as int + (v - 52)) as char
    else if v == 62 then '+'
    else '/'
  }

  /** The 6-bit value a character stands for, if it belongs to the alphabet. */
  function ValueOf(c: char): (r: Option<Sextet>)
    ensures r.Some? ==> CharOf(r.value) == c
    ensures r.None? ==> forall v: Sextet :: CharOf(v) != c
  {
    if 'A' <= c <= 'Z' then Some(c as int - 'A' as int)
    else if 'a' <= c <= 'z' then Some(c as int - 'a' as int + 26)
    else if '0' <= c <= '9' then Some(c as int - '0' as int + 52)
    else if c == '+' then Some(62)
    else if c == '/' then Some(63)
    else None
  }

  // ------------------------------------------------------------- encoding

  /** The 6-bit groups of a byte string, three bytes to four groups; a final
      one or two bytes give two or three groups, their low bits zero. */
  function Sextets(b: seq<Byte>): (r: seq<Sextet>)
    ensures |r| % 4 == (if |b| % 3 == 0 then 0 else |b| % 3 + 1)
    ensures (|r| == 0) == (|b| == 0)
    decreases |b|
  {
    if |b| >= 3 then
      [b[0] / 4, (b[0] % 4) * 16 + b[1] / 16, (b[1] % 16) * 4 + b[2] / 64, b[2] % 64] + Sextets(b[3..])
    else if |b| == 2 then [b[0] / 4, (b[0] % 4) * 16 + b[1] / 16, (b[1] % 16) * 4]
    else if |b| == 1 then [b[0] / 4, (b[0] % 4) * 16]
    else []
  }

  function CharsOf(v: seq<Sextet>): (s: string)
    ensures |s| == |v| && forall i :: 0 <= i < |v| ==> s[i] == CharOf(v[i])
  {
    seq(|v|, i requires 0 <= i < |v| => CharOf(v[i]))
  }

  /** '=' padding up to a multiple of four characters. */
  function Padding(n: nat): string {
    if n % 3 == 1 then "==" else if n % 3 == 2 then "=" else ""
  }

  function Encode(b: seq<Byte>): string {
    CharsOf(Sextets(b)) + Padding(|b|)
  }

  // ------------------------------------------------------------- decoding

  /** The bytes four 6-bit groups stand for; a final two or three groups give
      one or two bytes, the leftover low bits dropped. */
  function Join(v: seq<Sextet>): (b: seq<Byte>)
    requires |v| % 4 != 1
    decreases |v|
  {
    if |v| >= 4 then
      var x, y, z, w: int := v[0], v[1], v[2], v[3];
      [x * 4 + y / 16, (y % 16) * 16 + z / 4, (z % 4) * 64 + w] + Join(v[4..])
    else if |v| == 3 then
      var x, y, z: int := v[0], v[1], v[2];
      [x * 4 + y / 16, (y % 16) * 16 + z / 4]
    else if |v| == 2 then
      var x, y: int := v[0], v[1];
      [x * 4 + y / 16]
    else []
  }

  /** The 6-bit values of a string, or None if one of its characters is
      outside the alphabet. */
  function Values(s: string): (r: Option<seq<Sextet>>)
    ensures r.Some? ==> |r.value| == |s| && forall i :: 0 <= i < |s| ==> CharOf(r.value[i]) == s[i]
    ensures r.None? ==> exists i :: 0 <= i < |s| && ValueOf(s[i]).None?
  {
    if s == [] then Some([])
    else
      var v :- ValueOf(s[0]);
      var rest :- Values(s[1..]);
      assert forall i :: 1 <= i < |s| ==> s[1..][i - 1] == s[i];
      Some([v] + rest)
  }

  /** ASCII white space: tab, line feed, form feed, carriage return, space. */
  predicate IsAsciiWhitespace(c: char) {
    c == '\t' || c == '\n' || c as int == 12 || c == '\r' || c == ' '
  }

  function StripWhitespace(s: string): (r: string)
    ensures forall i :: 0 <= i < |r| ==> !IsAsciiWhitespace(r[i])
    ensures (forall i :: 0 <= i < |s| ==> !IsAsciiWhitespace(s[i])) ==> r == s
  {
    if s == [] then []
    else if IsAsciiWhitespace(s[0]) then StripWhitespace(s[1..])
    else [s[0]] + StripWhitespace(s[1..])
  }

  /** When the length is a multiple of four, one or two final '=' are removed. */
  function StripPadding(s: string): string {
    if |s| % 4 == 0 && |s| >= 2 && s[|s| - 2] == '=' && s[|s| - 1] == '=' then s[..|s| - 2]
    else if |s| % 4 == 0 && |s| >= 1 && s[|s| - 1] == '=' then s[..|s| - 1]
    else s
  }

  /** The forgiving decoder: None where `atob` throws. */
  function Decode(s: string): Option<seq<Byte>> {
    var d := StripPadding(StripWhitespace(s));
    if |d| % 4 == 1 then None
    else
      var v :- Values(d);
      Some(Join(v))
  }

  // ---------------------------------------------------- strings and bytes

  /** Every character fits in one byte, as `btoa` demands. */
  predicate IsLatin1(s: string) {
    forall i :: 0 <= i < |s| ==> (s[i] as int) < 256
  }

  function BytesOf(s: string): (b: seq<Byte>)
    requires IsLatin1(s)
    ensures |b| == |s| && forall i :: 0 <= i < |s| ==> b[i] == s[i] as int
  {
    seq(|s|, i requires 0 <= i < |s| && IsLatin1(s) => s[i] as int)
  }

  function StringOf(b: seq<Byte>): (s: string)
    ensures |s| == |b| && forall i :: 0 <= i < |b| ==> s[i] as int == b[i]
  {
    seq(|b|, i requires 0 <= i < |b| => b[i] as char)
  }

  /** `btoa(s)`; None where it throws (a character above 255). */
  function Btoa(s: string): (r: Option<string>)
    ensures r.Some? <==> IsLatin1(s)
  {
    if IsLatin1(s) then Some(Encode(BytesOf(s))) else None
  }

  /** `atob(s)`; None where it throws. Its result is a string of byte values. */
  function Atob(s: string): (r: Option<string>)
    ensures r.Some? ==> IsLatin1(r.value)
  {
    var b :- Decode(s);
    Some(StringOf(b))
  }

  // ---------------------------------------------------------- round trip

  lemma {:induction false} JoinSextets(b: seq<Byte>)
    ensures Join(Sextets(b)) == b
    decreases |b|
  {
    if |b| >= 3 {
      var g := [b[0] / 4, (b[0] % 4) * 16 + b[1] / 16, (b[1] % 16) * 4 + b[2] / 64, b[2] % 64];
      var rest := Sextets(b[3..]);
      assert Sextets(b) == g + rest;
      assert (g + rest)[..4] == g && (g + rest)[4..] == rest;
      JoinSextets(b[3..]);
      assert b == b[..3] + b[3..];
    }
  }

  lemma {:induction false} ValuesOfChars(v: seq<Sextet>)
    ensures Values(CharsOf(v)) == Some(v)
    decreases |v|
  {
    if v != [] {
      var s := CharsOf(v);
      ValuesOfChars(v[1..]);
      assert s[1..] == CharsOf(v[1..]);
      assert v == [v[0]] + v[1..];
    }
  }

  lemma EncodeHasNoWhitespace(b: seq<Byte>)
    ensures forall i :: 0 <= i < |Encode(b)| ==> !IsAsciiWhitespace(Encode(b)[i])
  {
    var c := CharsOf(Sextets(b));
    var e := Encode(b);
    forall i | 0 <= i < |e| ensures !IsAsciiWhitespace(e[i]) {
      if i < |c| { assert e[i] == c[i]; }
    }
  }

  lemma StripPaddingOfEncode(b: seq<Byte>)
    ensures StripPadding(Encode(b)) == CharsOf(Sextets(b))
  {
    var c := CharsOf(Sextets(b));
    var e := Encode(b);
    assert |e| % 4 == 0;
    if |b| % 3 == 0 {
      assert |c| > 0 ==> c[|c| - 1] != '=';
      assert e == c;
    } else if |b| % 3 == 1 {
      assert e[..|e| - 2] == c;
    } else {
      assert c[|c| - 1] != '=';
      assert e[..|e| - 1] == c;
    }
  }

  /** `atob` undoes `btoa`: decoding the encoding of a string gives the string back. */
  lemma AtobBtoa(s: string)
    requires IsLatin1(s)
    ensures Btoa(s).Some? && Atob(Btoa(s).value) == Some(s)
  {
    var b := BytesOf(s);
    var e := Encode(b);
    EncodeHasNoWhitespace(b);
    assert StripWhitespace(e) == e;
    StripPaddingOfEncode(b);
    ValuesOfChars(Sextets(b));
    JoinSextets(b);
    assert Decode(e) == Some(b);
    assert StringOf(b) == s;
  }

  /** Bytes that are ASCII but not '>' (62) or '~' (126) never produce the
      group 62, so the encoding holds no '+'. */
  lemma {:induction false} NoPlusGroup(b: seq<Byte>)
    requires forall i :: 0 <= i < |b| ==> b[i] < 128 && b[i] != 62 && b[i] != 126
    ensures forall i :: 0 <= i < |Sextets(b)| ==> Sextets(b)[i] != 62
    decreases |b|
  {
    if |b| >= 3 {
      NoPlusGroup(b[3..]);
      var g := [b[0] / 4, (b[0] % 4) * 16 + b[1] / 16, (b[1] % 16) * 4 + b[2] / 64, b[2] % 64];
      var rest := Sextets(b[3..]);
      assert Sextets(b) == g + rest;
      forall i | 0 <= i < |g + rest| ensures (g + rest)[i] != 62 {
        if i >= 4 { assert (g + rest)[i] == rest[i - 4]; }
      }
    }
  }

  lemma NoPlusInEncode(s: string)
    requires IsLatin1(s)
    requires forall i :: 0 <= i < |s| ==> (s[i] as int) < 128 && s[i] != '>' && s[i] != '~'
    ensures forall i :: 0 <= i < |Btoa(s).value| ==> Btoa(s).value[i] != '+'
  {
    var b := BytesOf(s);
    NoPlusGroup(b);
    var v := Sextets(b);
    var e := Encode(b);
    forall i | 0 <= i < |e| ensures e[i] != '+' {
      if i < |v| {
        assert e[i] == CharOf(v[i]);
      }
    }
  }
}
