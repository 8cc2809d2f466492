/** Strings as UTF-8 bytes, section 3 of RFC 3629. */
module Utf8 {

  type Byte = b: int | 0 <= b < 256 witness 0

  type Bytes = seq<Byte>

  const NEWLINE: Byte := 10

  function EncodeChar(c: char): (bytes: Bytes)
    ensures 1 <= |bytes| <= 4 && |bytes| == Width(bytes[0]) && !IsContinuation(bytes[0])
    ensures forall i :: 1 <= i < |bytes| ==> IsContinuation(bytes[i])
    ensures NEWLINE in bytes <==> c == '\n'
    ensures c == '\n' ==> bytes == [NEWLINE]
  {
    var n := c as int;
    if n < 0x80 then [n]
    else if n < 0x800 then [0xC0 + n / 0x40, 0x80 + n % 0x40]
    else if n < 0x1_0000 then [0xE0 + n / 0x1000, 0x80 + n / 0x40 % 0x40, 0x80 + n % 0x40]
    else [0xF0 + n / 0x4_0000, 0x80 + n / 0x1000 % 0x40, 0x80 + n / 0x40 % 0x40, 0x80 + n % 0x40]
  }

  function Encode(s: string): (bytes: Bytes)
    ensures |bytes| >= |s|
    ensures s != "" ==> !IsContinuation(bytes[0])
  {
    if s == "" then [] else EncodeChar(s[0]) + Encode(s[1..])
  }

  predicate IsContinuation(b: Byte) {
    0x80 <= b < 0xC0
  }

  /** The number of bytes of a character that starts with b. */
  function Width(b: Byte): (n: nat)
    ensures 1 <= n <= 4
  {
    if b < 0x80 then 1 else if b < 0xE0 then 2 else if b < 0xF0 then 3 else 4
  }

  predicate IsCharBoundary(text: Bytes, index: nat) {
    index == 0 || index == |text| || (index < |text| && !IsContinuation(text[index]))
  }

  /** The positions from `from` on at which a character starts. */
  function CharIndices(text: Bytes, from: nat): (indices: seq<nat>)
    ensures forall k :: 0 <= k < |indices| ==> from <= indices[k] < |text|
    decreases |text| - from
  {
    if from >= |text| then [] else [from] + CharIndices(text, from + Width(text[from]))
  }

  lemma {:induction false} EncodeConcat(s: string, t: string)
    ensures Encode(s + t) == Encode(s) + Encode(t)
  {
    hide EncodeChar;
    if s == "" {
      assert s + t == t;
    } else {
      assert (s + t)[0] == s[0] && (s + t)[1..] == s[1..] + t;
      EncodeConcat(s[1..], t);
      assert EncodeChar(s[0]) + (Encode(s[1..]) + Encode(t)) == EncodeChar(s[0]) + Encode(s[1..]) + Encode(t);
    }
  }

  lemma EncodeSingle(c: char)
    ensures Encode([c]) == EncodeChar(c)
  {
    hide EncodeChar;
    assert [c][1..] == "";
  }

  /** The scalar value that the bytes of one character spell. */
  function ScalarOf(bytes: Bytes): int
    requires 1 <= |bytes| <= 4
  {
    match |bytes|
    case 1 => bytes[0] as int
    case 2 => (bytes[0] as int - 0xC0) * 0x40 + (bytes[1] as int - 0x80)
    case 3 => (bytes[0] as int - 0xE0) * 0x1000 + (bytes[1] as int - 0x80) * 0x40 + (bytes[2] as int - 0x80)
    case _ =>
      (bytes[0] as int - 0xF0) * 0x4_0000 + (bytes[1] as int - 0x80) * 0x1000
      + (bytes[2] as int - 0x80) * 0x40 + (bytes[3] as int - 0x80)
  }

  lemma ScalarOfEncoded(c: char)
    ensures ScalarOf(EncodeChar(c)) == c as int
  {
    hide Width, IsContinuation;
    var n := c as int;
    assert n / 0x1000 == n / 0x40 / 0x40;
    assert n / 0x4_0000 == n / 0x1000 / 0x40;
  }

  lemma EncodeCharInjective(c: char, d: char)
    requires EncodeChar(c) == EncodeChar(d)
    ensures c == d
  {
    hide EncodeChar, ScalarOf;
    ScalarOfEncoded(c);
    ScalarOfEncoded(d);
  }

  /** Bytes determine the string they encode. */
  lemma {:induction false} EncodeInjective(s: string, t: string)
    requires Encode(s) == Encode(t)
    ensures s == t
  {
    hide EncodeChar;
    if s == "" || t == "" {
    } else {
      var e, f := EncodeChar(s[0]), EncodeChar(t[0]);
      assert Encode(s)[0] == e[0] && Encode(t)[0] == f[0];
      assert |e| == |f|;
      assert e == Encode(s)[..|e|] && f == Encode(t)[..|f|];
      EncodeCharInjective(s[0], t[0]);
      assert Encode(s[1..]) == Encode(s)[|e|..] && Encode(t[1..]) == Encode(t)[|f|..];
      EncodeInjective(s[1..], t[1..]);
      assert s == [s[0]] + s[1..] && t == [t[0]] + t[1..];
    }
  }

  /** The first character after a prefix starts where the prefix ends. */
  lemma NextCharAt(before: string, after: string)
    requires after != ""
    ensures var text, p := Encode(before + after), |Encode(before)|;
            && p < |text| && !IsContinuation(text[p])
            && p + Width(text[p]) == |Encode(before + [after[0]])|
  {
    hide EncodeChar;
    EncodeConcat(before, after);
    EncodeConcat(before, [after[0]]);
    EncodeSingle(after[0]);
    assert Encode(after)[0] == EncodeChar(after[0])[0];
  }

  /** The characters after a prefix start where the longer prefixes end. */
  lemma {:induction false} CharIndicesAfter(before: string, after: string)
    ensures var indices := CharIndices(Encode(before + after), |Encode(before)|);
            && |indices| == |after|
            && forall k :: 0 <= k < |after| ==> indices[k] == |Encode(before + after[..k])|
    decreases |after|
  {
    hide EncodeChar, Encode, Width;
    if after == "" {
      assert before + after == before;
    } else {
      var first := before + [after[0]];
      NextCharAt(before, after);
      assert first + after[1..] == before + after;
      CharIndicesAfter(first, after[1..]);
      forall k | 0 <= k < |after|
        ensures CharIndices(Encode(before + after), |Encode(before)|)[k] == |Encode(before + after[..k])|
      {
        if k == 0 {
          assert before + after[..0] == before;
        } else {
          assert first + after[1..][..k - 1] == before + after[..k];
        }
      }
    }
  }

  lemma CharIndicesOf(s: string)
    ensures var indices := CharIndices(Encode(s), 0);
            && |indices| == |s|
            && forall k :: 0 <= k < |s| ==> indices[k] == |Encode(s[..k])|
  {
    hide Encode, CharIndices;
    CharIndicesAfter("", s);
    EmptyEncoding();
    assert "" + s == s;
    assert forall k :: 0 <= k < |s| ==> "" + s[..k] == s[..k];
  }

  lemma EmptyEncoding()
    ensures Encode("") == []
  {
  }

  lemma {:induction false} BoundaryIsPrefix(s: string, i: nat) returns (k: nat)
    requires IsCharBoundary(Encode(s), i)
    ensures k <= |s| && i == |Encode(s[..k])|
  {
    hide EncodeChar;
    if i == 0 {
      k := 0;
    } else if i >= |Encode(s)| {
      k := |s|;
      assert s[..k] == s;
    } else {
      var w := |EncodeChar(s[0])|;
      if i < w {
        assert false;
      }
      if i > w {
        assert Encode(s)[i] == Encode(s[1..])[i - w];
      }
      k := BoundaryIsPrefix(s[1..], i - w);
      k := k + 1;
      assert s[..k][1..] == s[1..][..k - 1];
    }
  }

  lemma PrefixIsBoundary(s: string, k: nat)
    requires k <= |s|
    ensures IsCharBoundary(Encode(s), |Encode(s[..k])|)
  {
    hide Encode;
    assert s[..k] + s[k..] == s;
    if k < |s| {
      NextCharAt(s[..k], s[k..]);
    } else {
      assert s[..k] == s;
    }
  }

  /** The character boundaries of a text are the lengths of its prefixes. */
  lemma BoundaryIffPrefix(s: string, i: nat)
    ensures IsCharBoundary(Encode(s), i) <==> exists k :: 0 <= k <= |s| && i == |Encode(s[..k])|
  {
    hide Encode, IsCharBoundary;
    if IsCharBoundary(Encode(s), i) {
      var k := BoundaryIsPrefix(s, i);
    }
    forall k | 0 <= k <= |s| && i == |Encode(s[..k])|
      ensures IsCharBoundary(Encode(s), i)
    {
      PrefixIsBoundary(s, k);
    }
  }
}
