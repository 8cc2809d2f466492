/** String literals as the MySQL server reads them under its default sql_mode: a backslash escapes. */
module MySqlStrings {
  import opened Text

  /** What a backslash and the character behind it stand for. The two pattern escapes keep the backslash. */
  function Unescaped(c: char): (r: string)
    ensures 1 <= |r| <= 2
  {
    if c == '%' || c == '_' then ['\\', c]
    else if c == '0' then ['\0']
    else if c == 'b' then ['\U{8}']
    else if c == 'n' then ['\n']
    else if c == 'r' then ['\r']
    else if c == 't' then ['\t']
    else if c == 'Z' then ['\U{1A}']
    else [c]
  }

  /** Reads a string literal behind its opening quote: its value and the text behind the closing quote. */
  function ReadString(s: string): Option<(string, string)> {
    if s == "" then None
    else if s[0] == '\\' then
      if |s| == 1 then None else Prepended(Unescaped(s[1]), ReadString(s[2..]))
    else if s[0] != '\'' then Prepended([s[0]], ReadString(s[1..]))
    else if |s| > 1 && s[1] == '\'' then Prepended(['\''], ReadString(s[2..]))
    else Some(("", s[1..]))
  }

  function Prepended(front: string, r: Option<(string, string)>): Option<(string, string)> {
    if r.Some? then Some((front + r.value.0, r.value.1)) else None
  }

  /** The text between the quotes that the generator writes. */
  function Written(t: string): string {
    Doubled(t, '\'')
  }

  /** Every backslash is followed by a percent sign or an underscore. */
  predicate BackslashesKept(t: string) {
    forall i :: 0 <= i < |t| && t[i] == '\\' ==> i + 1 < |t| && (t[i + 1] == '%' || t[i + 1] == '_')
  }

  /** Read in pairs from the left, no backslash takes a quote or the end of the text. */
  predicate EscapesClose(t: string) {
    t == "" || (if t[0] == '\\' then |t| > 1 && t[1] != '\'' && EscapesClose(t[2..]) else EscapesClose(t[1..]))
  }

  // ---------------------------------------------------------------- one character of written text

  lemma WrittenStep(t: string)
    ensures Written("") == ""
    ensures t != "" ==> Written(t) == (if t[0] == '\'' then "''" else [t[0]]) + Written(t[1..])
  {
  }

  lemma ReadsClosing(rest: string)
    requires rest == "" || rest[0] != '\''
    ensures ReadString("'" + rest) == Some(("", rest))
  {
    assert ("'" + rest)[1..] == rest;
  }

  lemma ReadsPair(rest: string)
    ensures ReadString("''" + rest) == Prepended("'", ReadString(rest))
  {
    assert ("''" + rest)[2..] == rest;
  }

  lemma ReadsPlain(c: char, rest: string)
    requires c != '\'' && c != '\\'
    ensures ReadString([c] + rest) == Prepended([c], ReadString(rest))
  {
    assert ([c] + rest)[1..] == rest;
  }

  lemma ReadsEscape(c: char, rest: string)
    ensures ReadString(['\\', c] + rest) == Prepended(Unescaped(c), ReadString(rest))
  {
    assert (['\\', c] + rest)[2..] == rest;
  }

  /** What the reader makes of written text, by the first characters of the original. */
  lemma ReadsStep(t: string, rest: string)
    requires rest == "" || rest[0] != '\''
    ensures t == "" ==> ReadString(Written(t) + "'" + rest) == Some(("", rest))
    ensures t != "" && t[0] != '\\' ==>
              ReadString(Written(t) + "'" + rest) == Prepended([t[0]], ReadString(Written(t[1..]) + "'" + rest))
    ensures |t| > 1 && t[0] == '\\' && t[1] != '\'' ==>
              ReadString(Written(t) + "'" + rest) ==
                Prepended(Unescaped(t[1]), ReadString(Written(t[2..]) + "'" + rest))
    ensures |t| > 1 && t[0] == '\\' && t[1] == '\'' ==>
              ReadString(Written(t) + "'" + rest) == Prepended(['\''], ReadString("'" + Written(t[2..]) + "'" + rest))
    ensures t == "\\" ==> ReadString(Written(t) + "'" + rest) == Prepended(['\''], ReadString(rest))
  {
    hide ReadString, Written, Prepended;
    WrittenStep(t);
    if t == "" {
      assert Written(t) + "'" + rest == "'" + rest;
      ReadsClosing(rest);
    } else if t[0] == '\'' {
      assert Written(t) + "'" + rest == "''" + (Written(t[1..]) + "'" + rest);
      ReadsPair(Written(t[1..]) + "'" + rest);
    } else if t[0] != '\\' {
      assert Written(t) + "'" + rest == [t[0]] + (Written(t[1..]) + "'" + rest);
      ReadsPlain(t[0], Written(t[1..]) + "'" + rest);
    } else {
      WrittenStep(t[1..]);
      if |t| == 1 {
        assert Written(t) + "'" + rest == ['\\', '\''] + rest;
        ReadsEscape('\'', rest);
      } else {
        assert t[1..][1..] == t[2..];
        if t[1] == '\'' {
          assert Written(t) + "'" + rest == ['\\', '\''] + ("'" + Written(t[2..]) + "'" + rest);
          ReadsEscape('\'', "'" + Written(t[2..]) + "'" + rest);
        } else {
          assert Written(t) + "'" + rest == ['\\', t[1]] + (Written(t[2..]) + "'" + rest);
          ReadsEscape(t[1], Written(t[2..]) + "'" + rest);
        }
      }
    }
  }

  // ---------------------------------------------------------------- reading back

  lemma {:induction false} KeptReadsBack(t: string, rest: string)
    requires BackslashesKept(t) && (rest == "" || rest[0] != '\'')
    ensures ReadString(Written(t) + "'" + rest) == Some((t, rest))
    decreases |t|
  {
    hide ReadString, Written;
    ReadsStep(t, rest);
    if t != "" {
      if t[0] == '\\' {
        assert t[0] == '\\' ==> 1 < |t| && (t[1] == '%' || t[1] == '_');
        KeptTail(t, 2);
        KeptReadsBack(t[2..], rest);
        assert ['\\', t[1]] + t[2..] == t;
      } else {
        KeptTail(t, 1);
        KeptReadsBack(t[1..], rest);
        assert [t[0]] + t[1..] == t;
      }
    }
  }

  lemma KeptTail(t: string, k: nat)
    requires BackslashesKept(t) && k <= |t|
    ensures BackslashesKept(t[k..])
  {
    forall i | 0 <= i < |t| - k && t[k..][i] == '\\'
      ensures i + 1 < |t| - k && (t[k..][i + 1] == '%' || t[k..][i + 1] == '_')
    {
      assert t[k + i] == '\\';
    }
  }

  /** Written text never reads as itself with more in front of it, unless that is a quote. */
  lemma {:induction false} NothingMoreInFront(x: string, u: string, rest: string)
    requires x != "" && '\'' !in x && (rest == "" || rest[0] != '\'')
    ensures ReadString(Written(u) + "'" + rest).Some? ==> ReadString(Written(u) + "'" + rest).value.0 != x + u
    decreases |u|
  {
    hide ReadString, Written;
    ReadsStep(u, rest);
    var r := ReadString(Written(u) + "'" + rest);
    assert x[0] in x;
    if r.Some? && u != "" {
      if u[0] == '\'' || u == "\\" || (u[0] == '\\' && u[1] == '\'') {
        assert r.value.0 != "" && r.value.0[0] == '\'';
        assert (x + u)[0] == x[0];
      } else if u[0] != '\\' {
        NothingMoreInFront(x[1..] + [u[0]], u[1..], rest);
        assert x + u == [x[0]] + (x[1..] + [u[0]] + u[1..]);
        DropsFront(x, u, 1);
        assert u == [u[0]] + u[1..];
        assert (x + u)[1..] == x[1..] + [u[0]] + u[1..];
        TailDiffers([u[0]], ReadString(Written(u[1..]) + "'" + rest).value.0, x + u);
      } else {
        var e := Unescaped(u[1]);
        var front := x + ['\\', u[1]];
        assert forall c :: c in front[|e|..] ==> c in x || c == '\\' || c == u[1];
        NothingMoreInFront(front[|e|..], u[2..], rest);
        assert u == ['\\', u[1]] + u[2..];
        assert x + u == front + u[2..];
        DropsFront(front, u[2..], |e|);
        TailDiffers(e, ReadString(Written(u[2..]) + "'" + rest).value.0, x + u);
      }
    }
  }

  lemma TailDiffers(e: string, v: string, w: string)
    requires |e| <= |w| && w[|e|..] != v
    ensures e + v != w
  {
    assert (e + v)[|e|..] == v;
  }

  lemma DropsFront(a: string, b: string, k: nat)
    requires k <= |a|
    ensures (a + b)[k..] == a[k..] + b
  {
  }

  lemma {:induction false} ReadBackIsKept(t: string, rest: string)
    requires rest == "" || rest[0] != '\''
    requires ReadString(Written(t) + "'" + rest).Some? && ReadString(Written(t) + "'" + rest).value.0 == t
    ensures BackslashesKept(t)
    decreases |t|
  {
    hide ReadString, Written;
    ReadsStep(t, rest);
    if t == "" {
    } else if t[0] != '\\' {
      var v := ReadString(Written(t[1..]) + "'" + rest).value.0;
      assert ([t[0]] + v)[1..] == v;
      ReadBackIsKept(t[1..], rest);
      assert t == [t[0]] + t[1..];
    } else if |t| > 1 && (t[1] == '%' || t[1] == '_') {
      var v := ReadString(Written(t[2..]) + "'" + rest).value.0;
      assert (Unescaped(t[1]) + v)[2..] == v;
      ReadBackIsKept(t[2..], rest);
      assert t == [t[0], t[1]] + t[2..];
    } else if |t| > 1 && t[1] != '\'' {
      var v := ReadString(Written(t[2..]) + "'" + rest).value.0;
      assert (Unescaped(t[1]) + v)[0] == Unescaped(t[1])[0] && (Unescaped(t[1]) + v)[1..] == v;
      assert t[1..] == [t[1]] + t[2..];
      NothingMoreInFront([t[1]], t[2..], rest);
      assert false;
    } else {
      assert false;
    }
  }

  /** The server reads a written string back as the original exactly when every backslash in it is
      followed by a percent sign or an underscore. */
  lemma ReadsBackIff(t: string, rest: string)
    requires rest == "" || rest[0] != '\''
    ensures ReadString(Written(t) + "'" + rest) == Some((t, rest)) <==> BackslashesKept(t)
    ensures !BackslashesKept(t) ==>
              ReadString(Written(t) + "'" + rest).Some? ==> ReadString(Written(t) + "'" + rest).value.0 != t
  {
    hide ReadString, Written;
    if BackslashesKept(t) {
      KeptReadsBack(t, rest);
    } else if ReadString(Written(t) + "'" + rest).Some? && ReadString(Written(t) + "'" + rest).value.0 == t {
      ReadBackIsKept(t, rest);
    }
  }

  // ---------------------------------------------------------------- closing

  /** One quote too many is never made up for before the end. */
  lemma {:induction false} OddNeverCloses(u: string)
    ensures var r := ReadString("'" + Written(u) + "'"); r.Some? ==> r.value.1 != ""
    decreases |u|
  {
    var text := "'" + Written(u) + "'";
    if u == "" {
      assert text == "''" && text[2..] == "";
    } else if u[0] == '\'' {
      var tail := "'" + Written(u[1..]) + "'";
      assert text == "''" + tail && text[2..] == tail;
      OddNeverCloses(u[1..]);
    } else {
      assert text[1] == u[0];
    }
  }

  /** A written string is closed by its own closing quote exactly when no backslash takes a quote or the
      end of the text. */
  lemma {:induction false} ClosesIff(t: string)
    ensures var r := ReadString(Written(t) + "'"); (r.Some? && r.value.1 == "") <==> EscapesClose(t)
    decreases |t|
  {
    hide ReadString, Written;
    assert Written(t) + "'" + "" == Written(t) + "'";
    ReadsStep(t, "");
    if t == "" {
    } else if t[0] != '\\' {
      assert Written(t[1..]) + "'" + "" == Written(t[1..]) + "'";
      ClosesIff(t[1..]);
    } else if t == "\\" {
      NothingToRead();
    } else if t[1] == '\'' {
      assert "'" + Written(t[2..]) + "'" + "" == "'" + Written(t[2..]) + "'";
      OddNeverCloses(t[2..]);
    } else {
      assert Written(t[2..]) + "'" + "" == Written(t[2..]) + "'";
      ClosesIff(t[2..]);
    }
  }

  lemma NothingToRead()
    ensures ReadString("") == None
  {
  }

  lemma {:induction false} KeptCloses(t: string)
    requires BackslashesKept(t)
    ensures EscapesClose(t)
    decreases |t|
  {
    if t != "" {
      if t[0] == '\\' {
        assert t[0] == '\\' ==> 1 < |t| && (t[1] == '%' || t[1] == '_');
        KeptTail(t, 2);
        KeptCloses(t[2..]);
      } else {
        KeptTail(t, 1);
        KeptCloses(t[1..]);
      }
    }
  }

  lemma {:induction false} PlainIsKept(t: string)
    requires '\\' !in t
    ensures BackslashesKept(t) && EscapesClose(t)
  {
    KeptCloses(t);
  }
}
