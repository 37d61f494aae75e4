/**
 * The few JavaScript string operations the core relies on: `startsWith`,
 * `includes`, number interpolation in template strings, `trim`,
 * `toUpperCase` and `encodeURI`.
 */
module Text {

  predicate StartsWith(s: string, prefix: string) {
    |prefix| <= |s| && s[..|prefix|] == prefix
  }

  predicate EndsWith(s: string, suffix: string) {
    |suffix| <= |s| && s[|s| - |suffix|..] == suffix
  }

  /** `t` occurs in `s` starting at index `i`. */
  predicate OccursAt(s: string, t: string, i: int) {
    0 <= i <= |s| - |t| && s[i..i + |t|] == t
  }

  /** `s.includes(t)`: `t` occurs somewhere in `s` as a contiguous slice. */
  predicate Contains(s: string, t: string) {
    exists i :: 0 <= i <= |s| - |t| && OccursAt(s, t, i)
  }

  /** `s.includes(c)` for a single character. */
  predicate HasChar(s: string, c: char) {
    exists i :: 0 <= i < |s| && s[i] == c
  }

  lemma StartsWithConcat(a: string, b: string, prefix: string)
    requires StartsWith(a, prefix)
    ensures StartsWith(a + b, prefix)
  {
    assert (a + b)[..|prefix|] == a[..|prefix|];
  }

  /** A concatenation starts with its left part, ends with its right part, and drops to the right part. */
  lemma ConcatParts(a: string, b: string)
    ensures StartsWith(a + b, a) && EndsWith(a + b, b) && (a + b)[|a|..] == b
  {
    assert (a + b)[..|a|] == a;
    assert (a + b)[|a|..] == b;
  }

  /** The three-part form the prompt builders use: a head, then a middle, then a tail. */
  lemma ThreeParts(head: string, middle: string, tail: string)
    ensures StartsWith(head + (middle + tail), head)
    ensures (head + (middle + tail))[|head|..] == middle + tail
    ensures EndsWith(head + (middle + tail), tail)
    ensures tail == "" ==> head + (middle + tail) == head + middle
  {
    ConcatParts(head, middle + tail);
    assert head + (middle + tail) == (head + middle) + tail;
    ConcatParts(head + middle, tail);
    if tail == "" {
      assert middle + tail == middle;
    }
  }

  lemma {:induction false} PrefixIsContained(s: string, t: string)
    requires StartsWith(s, t)
    ensures Contains(s, t)
  {
    assert OccursAt(s, t, 0);
  }

  /** No character of `s` is `c`. */
  predicate Lacks(s: string, c: char) {
    forall k :: 0 <= k < |s| ==> s[k] != c
  }

  lemma LacksConcat(a: string, b: string, c: char)
    requires Lacks(a, c) && Lacks(b, c)
    ensures Lacks(a + b, c)
  {
  }

  /** A string none of whose characters is the first character of `t` cannot contain `t`. */
  lemma {:induction false} MissingFirstChar(s: string, t: string)
    requires |t| > 0
    requires Lacks(s, t[0])
    ensures !Contains(s, t)
  {
    forall i | 0 <= i <= |s| - |t|
      ensures !OccursAt(s, t, i)
    {
      assert s[i..i + |t|][0] == s[i];
    }
  }

  // ---------------------------------------------------------------------------
  // Decimal rendering of numbers, as `${n}` does for integral values

  predicate IsDigit(c: char) {
    '0' <= c <= '9'
  }

  function DigitChar(d: nat): (c: char)
    requires d < 10
    ensures IsDigit(c)
  {
    ['0', '1', '2', '3', '4', '5', '6', '7', '8', '9'][d]
  }

  function DigitValue(c: char): nat
    requires IsDigit(c)
  {
    (c as int - '0' as int) as nat
  }

  /** `${n}` for a natural number: its shortest decimal representation. */
  function NatToString(n: nat): (r: string)
    ensures |r| >= 1
    ensures forall k :: 0 <= k < |r| ==> IsDigit(r[k])
    ensures r[0] == '0' ==> n == 0
  {
    if n < 10 then [DigitChar(n)] else NatToString(n / 10) + [DigitChar(n % 10)]
  }

  /** `${n}` for an integer: a minus sign before the digits of a negative value. */
  function IntToString(n: int): (r: string)
    ensures n >= 0 ==> r == NatToString(n)
    ensures n < 0 ==> r == "-" + NatToString(-n)
  {
    if n >= 0 then NatToString(n) else "-" + NatToString(-n)
  }

  /** The value a string of decimal digits denotes (most significant digit first). */
  function DecimalValue(s: string): nat
    requires forall k :: 0 <= k < |s| ==> IsDigit(s[k])
  {
    if s == [] then 0 else 10 * DecimalValue(s[..|s| - 1]) + DigitValue(s[|s| - 1])
  }

  lemma DigitRoundTrip(d: nat)
    requires d < 10
    ensures DigitValue(DigitChar(d)) == d
  {
  }

  /** Rendering a natural number in decimal loses nothing: reading the digits back gives it. */
  lemma {:induction false} NatToStringRoundTrip(n: nat)
    ensures DecimalValue(NatToString(n)) == n
  {
    var r := NatToString(n);
    if n < 10 {
      DigitRoundTrip(n);
    } else {
      NatToStringRoundTrip(n / 10);
      DigitRoundTrip(n % 10);
      assert r[..|r| - 1] == NatToString(n / 10);
    }
  }

  /** The digits carry no letter, so a rendered number never contains a letter-initial phrase. */
  lemma NoLetterInDigits(n: int, c: char)
    requires !IsDigit(c) && c != '-'
    ensures Lacks(IntToString(n), c)
  {
  }

  // ---------------------------------------------------------------------------
  // String.prototype.trim and toUpperCase

  /** The characters `trim` removes: ECMAScript WhiteSpace and LineTerminator. */
  predicate IsJsSpace(c: char) {
    c == ' ' || c == '\t' || c == '\n' || c == '\r' || c == '\U{000B}' || c == '\U{000C}'
    || c == '\U{00A0}' || c == '\U{1680}' || ('\U{2000}' <= c <= '\U{200A}')
    || c == '\U{2028}' || c == '\U{2029}' || c == '\U{202F}' || c == '\U{205F}'
    || c == '\U{3000}' || c == '\U{FEFF}'
  }

  function TrimStart(s: string): (r: string)
    ensures |r| <= |s| && r == s[|s| - |r|..]
    ensures r != [] ==> !IsJsSpace(r[0])
    ensures forall k :: 0 <= k < |s| - |r| ==> IsJsSpace(s[k])
  {
    if s != [] && IsJsSpace(s[0]) then TrimStart(s[1..]) else s
  }

  function TrimEnd(s: string): (r: string)
    ensures |r| <= |s| && r == s[..|r|]
    ensures r != [] ==> !IsJsSpace(r[|r| - 1])
    ensures forall k :: |r| <= k < |s| ==> IsJsSpace(s[k])
  {
    if s != [] && IsJsSpace(s[|s| - 1]) then TrimEnd(s[..|s| - 1]) else s
  }

  /**
   * `s.trim()`: the slice of `s` left once leading and trailing white space
   * is removed. Only white space goes: whatever lies before and after the
   * slice is white space.
   */
  function Trim(s: string): (r: string)
    ensures r != [] ==> !IsJsSpace(r[0]) && !IsJsSpace(r[|r| - 1])
    ensures Contains(s, r)
    ensures exists i :: TrimmedAt(s, r, i)
  {
    TrimSlice(s);
    TrimEnd(TrimStart(s))
  }

  /** `r` occurs in `s` at `i`, with nothing but white space before and after it. */
  predicate TrimmedAt(s: string, r: string, i: int) {
    && OccursAt(s, r, i)
    && (forall k :: 0 <= k < i ==> IsJsSpace(s[k]))
    && (forall k :: i + |r| <= k < |s| ==> IsJsSpace(s[k]))
  }

  /** Where the trimmed slice sits in `s`: after the leading white space. */
  lemma TrimSlice(s: string)
    ensures TrimmedAt(s, TrimEnd(TrimStart(s)), |s| - |TrimStart(s)|)
  {
    var t := TrimStart(s);
    var i := |s| - |t|;
    TrimSliceOccurs(s, t, TrimEnd(t), i);
    TrimSliceAfter(s, t, TrimEnd(t), i);
  }

  lemma TrimSliceOccurs(s: string, t: string, r: string, i: nat)
    requires i <= |s| && t == s[i..] && |r| <= |t| && r == t[..|r|]
    ensures OccursAt(s, r, i)
  {
    assert s[i..i + |r|] == s[i..][..|r|];
  }

  lemma TrimSliceAfter(s: string, t: string, r: string, i: nat)
    requires i <= |s| && t == s[i..] && |r| <= |t|
    requires forall k :: |r| <= k < |t| ==> IsJsSpace(t[k])
    ensures forall k :: i + |r| <= k < |s| ==> IsJsSpace(s[k])
  {
    forall k | i + |r| <= k < |s|
      ensures IsJsSpace(s[k])
    {
      assert s[k] == t[k - i];
    }
  }

  lemma {:induction false} TrimStartIdentity(s: string)
    requires s == [] || !IsJsSpace(s[0])
    ensures TrimStart(s) == s
  {
  }

  lemma {:induction false} TrimEndIdentity(s: string)
    requires s == [] || !IsJsSpace(s[|s| - 1])
    ensures TrimEnd(s) == s
  {
  }

  /** Trimming twice is trimming once. */
  lemma TrimIdempotent(s: string)
    ensures Trim(Trim(s)) == Trim(s)
  {
    var r := Trim(s);
    TrimStartIdentity(r);
    TrimEndIdentity(r);
  }

  function UpperChar(c: char): (u: char)
    ensures 'a' <= c <= 'z' ==> u as int == c as int - 32
    ensures !('a' <= c <= 'z') ==> u == c
  {
    if 'a' <= c <= 'z' then (c as int - 32) as char else c
  }

  /** `s.toUpperCase()` on the ASCII letters; every other character is kept. */
  function ToUpper(s: string): (r: string)
    ensures |r| == |s|
    ensures forall k :: 0 <= k < |s| ==> r[k] == UpperChar(s[k])
  {
    if s == [] then [] else [UpperChar(s[0])] + ToUpper(s[1..])
  }

  /** Upper-casing twice is upper-casing once. */
  lemma ToUpperIdempotent(s: string)
    ensures ToUpper(ToUpper(s)) == ToUpper(s)
  {
    assert forall k :: 0 <= k < |s| ==> UpperChar(UpperChar(s[k])) == UpperChar(s[k]);
  }

  /** Upper-casing keeps white space where it is, so it commutes with trimming. */
  lemma UpperKeepsSpaces(s: string)
    ensures forall k :: 0 <= k < |s| ==> (IsJsSpace(ToUpper(s)[k]) <==> IsJsSpace(s[k]))
  {
  }

  // ---------------------------------------------------------------------------
  // encodeURI

  /** The characters `encodeURI` leaves alone: letters, digits, `-_.!~*'()`, the URI reserved set and `#`. */
  predicate IsUriKept(c: char) {
    || ('A' <= c <= 'Z') || ('a' <= c <= 'z') || ('0' <= c <= '9')
    || c == '-' || c == '_' || c == '.' || c == '!' || c == '~' || c == '*' || c == '\'' || c == '(' || c == ')'
    || c == ';' || c == '/' || c == '?' || c == ':' || c == '@' || c == '&' || c == '=' || c == '+' || c == '$'
    || c == ',' || c == '#'
  }

  /** An upper-case hexadecimal digit. */
  function HexDigit(d: int): (c: char)
    requires 0 <= d < 16
    ensures IsUriKept(c)
  {
    if d < 10 then ('0' as int + d) as char else ('A' as int + d - 10) as char
  }

  /** The UTF-8 encoding of one code point. */
  function Utf8(c: char): (bytes: seq<int>)
    ensures 1 <= |bytes| <= 4
    ensures forall k :: 0 <= k < |bytes| ==> 0 <= bytes[k] < 256
    ensures (c as int < 0x80) <==> |bytes| == 1
  {
    var n := c as int;
    if n < 0x80 then [n]
    else if n < 0x800 then [0xC0 + n / 64, 0x80 + n % 64]
    else if n < 0x10000 then [0xE0 + n / 4096, 0x80 + (n / 64) % 64, 0x80 + n % 64]
    else [0xF0 + n / 262144, 0x80 + (n / 4096) % 64, 0x80 + (n / 64) % 64, 0x80 + n % 64]
  }

  /** `%XY` for each byte. */
  function PercentBytes(bytes: seq<int>): (r: string)
    requires forall k :: 0 <= k < |bytes| ==> 0 <= bytes[k] < 256
    ensures |r| == 3 * |bytes|
    ensures forall k :: 0 <= k < |r| ==> IsUriKept(r[k]) || r[k] == '%'
  {
    if bytes == [] then []
    else ['%', HexDigit(bytes[0] / 16), HexDigit(bytes[0] % 16)] + PercentBytes(bytes[1..])
  }

  /** One character as `encodeURI` writes it. */
  function EncodeChar(c: char): (r: string)
    ensures IsUriKept(c) ==> r == [c]
    ensures !IsUriKept(c) ==> |r| >= 3 && r[0] == '%'
    ensures forall k :: 0 <= k < |r| ==> IsUriKept(r[k]) || r[k] == '%'
  {
    if IsUriKept(c) then [c] else PercentBytes(Utf8(c))
  }

  /**
   * `encodeURI(s)`: every character outside the kept set, `%` included,
   * becomes the `%XY` escapes of its UTF-8 bytes. A string of code points
   * holds no lone surrogate, so the `URIError` case does not arise.
   */
  function EncodeUri(s: string): (r: string)
    ensures |r| >= |s|
    ensures forall k :: 0 <= k < |r| ==> IsUriKept(r[k]) || r[k] == '%'
  {
    if s == [] then [] else EncodeChar(s[0]) + EncodeUri(s[1..])
  }

  /** Encoding works character by character, so it distributes over concatenation. */
  lemma {:induction false} EncodeUriConcat(a: string, b: string)
    ensures EncodeUri(a + b) == EncodeUri(a) + EncodeUri(b)
  {
    if a == [] {
      assert a + b == b;
    } else {
      assert (a + b)[1..] == a[1..] + b;
      EncodeUriConcat(a[1..], b);
    }
  }

  /** A string of kept characters is encoded as itself. */
  lemma {:induction false} EncodeUriKeeps(s: string)
    requires forall k :: 0 <= k < |s| ==> IsUriKept(s[k])
    ensures EncodeUri(s) == s
  {
    if s != [] {
      EncodeUriKeeps(s[1..]);
    }
  }

  /** A kept prefix passes through, and a character that needs escaping is escaped where it stood. */
  lemma EncodeUriEscapes(a: string, c: char, b: string)
    requires forall k :: 0 <= k < |a| ==> IsUriKept(a[k])
    requires !IsUriKept(c)
    ensures EncodeUri(a + [c] + b) == a + PercentBytes(Utf8(c)) + EncodeUri(b)
  {
    EncodeUriConcat(a + [c], b);
    EncodeUriConcat(a, [c]);
    EncodeUriKeeps(a);
    EncodeSingle(c);
  }

  lemma EncodeSingle(c: char)
    requires !IsUriKept(c)
    ensures EncodeUri([c]) == PercentBytes(Utf8(c))
  {
    assert [c][1..] == [];
    assert EncodeUri([c]) == EncodeChar(c) + EncodeUri([]);
  }

  /** An escape sequence already in a URL is escaped again: `%` becomes `%25`, so `%20` becomes `%2520`. */
  lemma PercentIsEscapedAgain()
    ensures EncodeChar('%') == "%25"
    ensures EncodeChar(' ') == "%20"
  {
  }
}
