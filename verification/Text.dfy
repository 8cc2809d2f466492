/** Strings, white space and the number renderings shared by every component. */
module Text {

  datatype Option<+T> = None | Some(value: T)

  const U64_MAX: nat := 0xFFFF_FFFF_FFFF_FFFF

  type u64 = n: nat | n <= U64_MAX

  /** The Unicode White_Space property. */
  predicate IsWhitespace(c: char) {
    || '\t' <= c <= '\r'
    || c == ' '
    || c == '\U{85}'
    || c == '\U{A0}'
    || c == '\U{1680}'
    || '\U{2000}' <= c <= '\U{200A}'
    || c == '\U{2028}'
    || c == '\U{2029}'
    || c == '\U{202F}'
    || c == '\U{205F}'
    || c == '\U{3000}'
  }

  predicate AllWhitespace(s: string) {
    forall i :: 0 <= i < |s| ==> IsWhitespace(s[i])
  }

  function TrimStart(s: string): string {
    if s != "" && IsWhitespace(s[0]) then TrimStart(s[1..]) else s
  }

  function TrimEnd(s: string): string {
    if s != "" && IsWhitespace(s[|s| - 1]) then TrimEnd(s[..|s| - 1]) else s
  }

  lemma {:induction false} TrimStartCuts(s: string)
    ensures var t := TrimStart(s);
            && |t| <= |s| && t == s[|s| - |t|..]
            && AllWhitespace(s[..|s| - |t|])
            && (t != "" ==> !IsWhitespace(t[0]))
  {
    hide IsWhitespace;
    if s != "" && IsWhitespace(s[0]) {
      TrimStartCuts(s[1..]);
      var t := TrimStart(s);
      assert s[..|s| - |t|] == [s[0]] + s[1..][..|s| - 1 - |t|];
    }
  }

  lemma {:induction false} TrimEndCuts(s: string)
    ensures var t := TrimEnd(s);
            && |t| <= |s| && t == s[..|t|]
            && AllWhitespace(s[|t|..])
            && (t != "" ==> !IsWhitespace(t[|t| - 1]))
  {
    hide IsWhitespace;
    if s != "" && IsWhitespace(s[|s| - 1]) {
      TrimEndCuts(s[..|s| - 1]);
      var t := TrimEnd(s);
      assert s[|t|..] == s[..|s| - 1][|t|..] + [s[|s| - 1]];
    }
  }

  function Trim(s: string): string {
    TrimEnd(TrimStart(s))
  }

  predicate Trimmed(s: string) {
    s == "" || (!IsWhitespace(s[0]) && !IsWhitespace(s[|s| - 1]))
  }

  /** Trimming splits the text into white space, the trimmed text and white space. */
  lemma TrimParts(s: string) returns (left: string, right: string)
    ensures s == left + Trim(s) + right
    ensures AllWhitespace(left) && AllWhitespace(right)
    ensures Trimmed(Trim(s))
  {
    hide TrimStart, TrimEnd, IsWhitespace;
    TrimStartCuts(s);
    TrimEndCuts(TrimStart(s));
    var u := TrimStart(s);
    left := s[..|s| - |u|];
    right := u[|Trim(s)|..];
  }

  lemma TrimIsTrimmed(s: string)
    ensures Trimmed(Trim(s))
  {
    var left, right := TrimParts(s);
  }

  lemma TrimOfTrimmed(s: string)
    requires Trimmed(s)
    ensures TrimStart(s) == s && TrimEnd(s) == s && Trim(s) == s
  {
  }

  lemma {:induction false} BlankTrimsAway(s: string)
    requires AllWhitespace(s)
    ensures TrimStart(s) == ""
  {
    hide IsWhitespace;
    if s != "" {
      BlankTrimsAway(s[1..]);
    }
  }

  /** White space before an already trimmed text is all that trimming removes. */
  lemma TrimPadded(left: string, s: string)
    requires AllWhitespace(left) && Trimmed(s)
    ensures Trim(left + s) == s
  {
    if left == "" {
      assert left + s == s;
      TrimOfTrimmed(s);
    } else if s == "" {
      assert left + s == left;
      BlankTrimsAway(left);
    } else {
      assert (left + s)[1..] == left[1..] + s;
      TrimPadded(left[1..], s);
    }
  }

  predicate AllDigits(s: string) {
    forall i :: 0 <= i < |s| ==> '0' <= s[i] <= '9'
  }

  function Digit(d: nat): (c: char)
    requires d < 10
    ensures '0' <= c <= '9'
    ensures c as int - '0' as int == d
  {
    "0123456789"[d]
  }

  /** The decimal rendering of a natural number, without leading zeros. */
  function Decimal(n: nat): (s: string)
    ensures s != "" && AllDigits(s)
  {
    if n < 10 then [Digit(n)] else Decimal(n / 10) + [Digit(n % 10)]
  }

  function DecimalValue(s: string): nat
    requires AllDigits(s)
  {
    if s == "" then 0 else 10 * DecimalValue(s[..|s| - 1]) + (s[|s| - 1] as int - '0' as int)
  }

  lemma {:induction false} DecimalRoundTrip(n: nat)
    ensures DecimalValue(Decimal(n)) == n
  {
    if n >= 10 {
      DecimalRoundTrip(n / 10);
      assert Decimal(n)[..|Decimal(n)| - 1] == Decimal(n / 10);
    } else {
      assert Decimal(n)[..0] == "";
    }
  }

  lemma DecimalInjective(m: nat, n: nat)
    requires Decimal(m) == Decimal(n)
    ensures m == n
  {
    DecimalRoundTrip(m);
    DecimalRoundTrip(n);
  }

  function HexDigit(d: nat): (c: char)
    requires d < 16
    ensures c as int == if d < 10 then '0' as int + d else 'a' as int + d - 10
  {
    "0123456789abcdef"[d]
  }

  /** The low `width` hexadecimal digits of n, padded with zeros. */
  function Hex(n: nat, width: nat): (s: string)
    ensures |s| == width
  {
    if width == 0 then "" else Hex(n / 16, width - 1) + [HexDigit(n % 16)]
  }

  function Power16(width: nat): nat {
    if width == 0 then 1 else 16 * Power16(width - 1)
  }

  lemma {:induction false} HexInjective(m: nat, n: nat, width: nat)
    requires m < Power16(width) && n < Power16(width)
    requires Hex(m, width) == Hex(n, width)
    ensures m == n
  {
    if width > 0 {
      assert Hex(m, width)[..width - 1] == Hex(m / 16, width - 1);
      assert Hex(n, width)[..width - 1] == Hex(n / 16, width - 1);
      assert m % 16 == n % 16 by {
        assert HexDigit(m % 16) == Hex(m, width)[width - 1] == HexDigit(n % 16);
      }
      HexInjective(m / 16, n / 16, width - 1);
    }
  }

  function Min(a: nat, b: nat): nat {
    if a <= b then a else b
  }

  /** Every occurrence of q doubled. */
  function Doubled(s: string, q: char): string {
    if s == "" then "" else (if s[0] == q then [q, q] else [s[0]]) + Doubled(s[1..], q)
  }

  function Join(parts: seq<string>, separator: string): string {
    if parts == [] then ""
    else if |parts| == 1 then parts[0]
    else parts[0] + separator + Join(parts[1..], separator)
  }

  /** The number of characters that are not white space. */
  function Solid(s: string): nat {
    if s == "" then 0 else (if IsWhitespace(s[0]) then 0 else 1) + Solid(s[1..])
  }

  lemma {:induction false} SolidConcat(a: string, b: string)
    ensures Solid(a + b) == Solid(a) + Solid(b)
  {
    if a == "" {
      assert a + b == b;
    } else {
      assert (a + b)[1..] == a[1..] + b;
      SolidConcat(a[1..], b);
    }
  }

  lemma {:induction false} SolidWhitespace(s: string)
    requires AllWhitespace(s)
    ensures Solid(s) == 0
  {
    if s != "" {
      SolidWhitespace(s[1..]);
    }
  }

  lemma SolidTrim(s: string)
    ensures Solid(Trim(s)) == Solid(s)
  {
    var left, right := TrimParts(s);
    SolidConcat(left + Trim(s), right);
    SolidConcat(left, Trim(s));
    SolidWhitespace(left);
    SolidWhitespace(right);
  }

  function AsciiUpper(c: char): char {
    if 'a' <= c <= 'z' then (c as int - 32) as char else c
  }

  function AsciiUppercase(s: string): (t: string)
    ensures |t| == |s|
  {
    seq(|s|, i requires 0 <= i < |s| => AsciiUpper(s[i]))
  }

  function AsciiLower(c: char): char {
    if 'A' <= c <= 'Z' then (c as int + 32) as char else c
  }

  function AsciiLowercase(s: string): (t: string)
    ensures |t| == |s|
  {
    seq(|s|, i requires 0 <= i < |s| => AsciiLower(s[i]))
  }

  /** The same character, or the capital and the small form of one of the letters A to Z. */
  predicate SameLetter(c: char, d: char) {
    || c == d
    || ('A' <= c <= 'Z' && d as int == c as int + 32)
    || ('A' <= d <= 'Z' && c as int == d as int + 32)
  }

  predicate SameLetters(s: string, t: string) {
    |s| == |t| && forall i :: 0 <= i < |s| ==> SameLetter(s[i], t[i])
  }

  lemma CaseOfCharacter(c: char, d: char)
    ensures AsciiUpper(c) == AsciiUpper(d) <==> SameLetter(c, d)
    ensures AsciiLower(c) == AsciiLower(d) <==> SameLetter(c, d)
    ensures SameLetter(c, AsciiUpper(c)) && !('a' <= AsciiUpper(c) <= 'z')
    ensures SameLetter(c, AsciiLower(c)) && !('A' <= AsciiLower(c) <= 'Z')
  {
  }

  /** Upper and lower case tell texts apart exactly when they differ in more than the case of A to Z. */
  lemma CaseIsIgnored(s: string, t: string)
    ensures AsciiUppercase(s) == AsciiUppercase(t) <==> SameLetters(s, t)
    ensures AsciiLowercase(s) == AsciiLowercase(t) <==> SameLetters(s, t)
  {
    hide AsciiUpper, AsciiLower, SameLetter;
    forall c, d
      ensures AsciiUpper(c) == AsciiUpper(d) <==> SameLetter(c, d)
      ensures AsciiLower(c) == AsciiLower(d) <==> SameLetter(c, d)
    {
      CaseOfCharacter(c, d);
    }
    if AsciiUppercase(s) == AsciiUppercase(t) {
      forall i | 0 <= i < |s|
        ensures SameLetter(s[i], t[i])
      {
        assert AsciiUppercase(s)[i] == AsciiUppercase(t)[i];
      }
    }
    if AsciiLowercase(s) == AsciiLowercase(t) {
      forall i | 0 <= i < |s|
        ensures SameLetter(s[i], t[i])
      {
        assert AsciiLowercase(s)[i] == AsciiLowercase(t)[i];
      }
    }
  }
}
