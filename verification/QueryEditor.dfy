/** The query editor: text and cursor as bytes, and the history of submitted queries. */
module QueryEditor {
  import opened Text
  import opened Utf8
  import opened ResultsBuffer

  const HISTORY_LIMIT: nat := 100

  datatype Editor = Editor(
    text: Bytes,
    cursor: nat,
    history: seq<string>,
    index: Option<nat>,
    draft: Option<Bytes>)

  predicate HistoryInRange(e: Editor) {
    e.index.Some? ==> e.index.value < |e.history|
  }

  // ---------------------------------------------------------------- character boundaries

  function PreviousCharBoundary(text: Bytes, index: nat): (p: nat)
    requires index <= |text| ==> IsCharBoundary(text, index)
    ensures p <= index
  {
    var clamped := Min(index, |text|);
    var indices := CharIndices(text[..clamped], 0);
    if clamped == 0 || indices == [] then 0 else indices[|indices| - 1]
  }

  function NextCharBoundary(text: Bytes, index: nat): (p: nat)
    requires index <= |text| ==> IsCharBoundary(text, index)
  {
    if index >= |text| then |text|
    else
      var indices := CharIndices(text[index..], 0);
      if |indices| > 1 then index + indices[1] else |text|
  }

  /** The nearest character boundary at or before a position. */
  function ScanBack(text: Bytes, cursor: nat): (c: nat)
    requires cursor <= |text|
    ensures c <= cursor && IsCharBoundary(text, c)
    ensures forall j :: c < j <= cursor ==> !IsCharBoundary(text, j)
  {
    if cursor > 0 && !IsCharBoundary(text, cursor) then ScanBack(text, cursor - 1) else cursor
  }

  function Clamped(text: Bytes, cursor: nat): (c: nat)
    ensures c <= |text| && IsCharBoundary(text, c)
  {
    ScanBack(text, Min(cursor, |text|))
  }

  // ---------------------------------------------------------------- line and column

  function CountNewlines(bytes: Bytes): nat {
    if bytes == [] then 0 else (if bytes[0] == NEWLINE then 1 else 0) + CountNewlines(bytes[1..])
  }

  /** What follows the last newline. */
  function LastSegment(bytes: Bytes): Bytes {
    if bytes == [] || bytes[|bytes| - 1] == NEWLINE then []
    else LastSegment(bytes[..|bytes| - 1]) + [bytes[|bytes| - 1]]
  }

  /** Both count from one; the column counts characters. */
  function LineCol(text: Bytes, cursor: nat): (nat, nat) {
    var prefix := text[..Min(cursor, |text|)];
    (CountNewlines(prefix) + 1, |CharIndices(LastSegment(prefix), 0)| + 1)
  }

  // ---------------------------------------------------------------- the operations on values

  function Inserted(e: Editor, t: Bytes): Editor {
    var c := Clamped(e.text, e.cursor);
    e.(text := e.text[..c] + t + e.text[c..], cursor := c + |t|, index := None)
  }

  function Backspaced(e: Editor): Editor {
    var c := Clamped(e.text, e.cursor);
    var p := PreviousCharBoundary(e.text, c);
    if c == 0 then e.(cursor := c)
    else e.(text := e.text[..p] + e.text[c..], cursor := p, index := None)
  }

  function MovedLeft(e: Editor): Editor {
    e.(cursor := PreviousCharBoundary(e.text, Clamped(e.text, e.cursor)))
  }

  function MovedRight(e: Editor): Editor {
    e.(cursor := NextCharBoundary(e.text, Clamped(e.text, e.cursor)))
  }

  function Showing(e: Editor, text: Bytes): Editor {
    e.(text := text, cursor := |text|)
  }

  function HistoryUp(e: Editor): Editor
    requires HistoryInRange(e)
  {
    if e.history == [] then e
    else
      var next := match e.index
                  case Some(index) => if index == 0 then 0 else index - 1
                  case None => |e.history| - 1;
      Showing(e, Encode(e.history[next])).(
        index := Some(next),
        draft := if e.index.None? then Some(e.text) else e.draft)
  }

  function HistoryDown(e: Editor): Editor {
    match e.index
    case None => e
    case Some(index) =>
      if index + 1 < |e.history| then Showing(e, Encode(e.history[index + 1])).(index := Some(index + 1))
      else Showing(e, if e.draft.Some? then e.draft.value else e.text).(index := None, draft := None)
  }

  /** The history after a submission: no blank entry, no immediate repetition, the latest hundred. */
  function Recorded(history: seq<string>, sql: string): seq<string> {
    if Trim(sql) == "" || (history != [] && history[|history| - 1] == Trim(sql)) then history
    else
      var longer := history + [Trim(sql)];
      longer[if |longer| > HISTORY_LIMIT then |longer| - HISTORY_LIMIT else 0..]
  }

  function Submitted(e: Editor, sql: string): Editor {
    Editor(Encode(sql), |Encode(sql)|, Recorded(e.history, sql), None, None)
  }

  function Replaced(e: Editor, text: string): Editor {
    Showing(e, Encode(text)).(index := None, draft := None)
  }

  // ---------------------------------------------------------------- the editor object

  class QueryEditor {
    var queryEditorText: Bytes
    var queryCursor: nat
    var queryHistory: seq<string>
    var queryHistoryIndex: Option<nat>
    var queryHistoryDraft: Option<Bytes>

    ghost function View(): Editor
      reads this
    {
      Editor(queryEditorText, queryCursor, queryHistory, queryHistoryIndex, queryHistoryDraft)
    }

    constructor (text: string)
      ensures View() == Editor(Encode(text), |Encode(text)|, [], None, None)
    {
      queryEditorText, queryCursor := Encode(text), |Encode(text)|;
      queryHistory, queryHistoryIndex, queryHistoryDraft := [], None, None;
    }

    method ClampQueryCursor()
      modifies this`queryCursor
      ensures queryCursor == Clamped(queryEditorText, old(queryCursor))
    {
      if queryCursor > |queryEditorText| {
        queryCursor := |queryEditorText|;
      }
      while queryCursor > 0 && !IsCharBoundary(queryEditorText, queryCursor)
        invariant queryCursor <= |queryEditorText|
        invariant ScanBack(queryEditorText, queryCursor) == Clamped(queryEditorText, old(queryCursor))
      {
        queryCursor := queryCursor - 1;
      }
    }

    method InsertTextAtQueryCursor(text: Bytes)
      modifies this
      ensures View() == Inserted(old(View()), text)
    {
      ClampQueryCursor();
      queryEditorText := queryEditorText[..queryCursor] + text + queryEditorText[queryCursor..];
      queryCursor := Min(queryCursor + |text|, |queryEditorText|);
      queryHistoryIndex := None;
    }

    method BackspaceQueryEditorChar()
      modifies this
      ensures View() == Backspaced(old(View()))
    {
      ClampQueryCursor();
      if queryCursor == 0 {
        return;
      }
      var previous := PreviousCharBoundary(queryEditorText, queryCursor);
      queryEditorText := queryEditorText[..previous] + queryEditorText[queryCursor..];
      queryCursor := previous;
      queryHistoryIndex := None;
    }

    method MoveQueryCursorLeft()
      modifies this
      ensures View() == MovedLeft(old(View()))
    {
      ClampQueryCursor();
      queryCursor := PreviousCharBoundary(queryEditorText, queryCursor);
    }

    method MoveQueryCursorRight()
      modifies this
      ensures View() == MovedRight(old(View()))
    {
      ClampQueryCursor();
      queryCursor := NextCharBoundary(queryEditorText, queryCursor);
    }

    method UsePreviousQueryFromHistory()
      requires HistoryInRange(View())
      modifies this
      ensures View() == HistoryUp(old(View()))
    {
      if queryHistory == [] {
        return;
      }
      var next := |queryHistory| - 1;
      match queryHistoryIndex {
        case Some(index) =>
          next := if index == 0 then 0 else index - 1;
        case None =>
          queryHistoryDraft := Some(queryEditorText);
      }
      queryHistoryIndex := Some(next);
      queryEditorText := Encode(queryHistory[next]);
      queryCursor := |queryEditorText|;
    }

    method UseNextQueryFromHistory()
      modifies this
      ensures View() == HistoryDown(old(View()))
    {
      if queryHistoryIndex.None? {
        return;
      }
      var index := queryHistoryIndex.value;
      if index + 1 < |queryHistory| {
        queryHistoryIndex := Some(index + 1);
        queryEditorText := Encode(queryHistory[index + 1]);
        queryCursor := |queryEditorText|;
        return;
      }
      queryHistoryIndex := None;
      if queryHistoryDraft.Some? {
        queryEditorText := queryHistoryDraft.value;
        queryHistoryDraft := None;
      }
      queryCursor := |queryEditorText|;
    }

    method RecordQueryHistory(sql: string)
      modifies this`queryHistory
      ensures queryHistory == Recorded(old(queryHistory), sql)
    {
      var trimmed := Trim(sql);
      if trimmed == "" {
        return;
      }
      if queryHistory != [] && queryHistory[|queryHistory| - 1] == trimmed {
        return;
      }
      queryHistory := queryHistory + [trimmed];
      if |queryHistory| > HISTORY_LIMIT {
        var overflow := |queryHistory| - HISTORY_LIMIT;
        queryHistory := queryHistory[overflow..];
      }
    }

    method SubmitText(sql: string)
      modifies this
      ensures View() == Submitted(old(View()), sql)
    {
      RecordQueryHistory(sql);
      queryHistoryIndex := None;
      queryHistoryDraft := None;
      queryEditorText := Encode(sql);
      queryCursor := |queryEditorText|;
    }
  }

  // ---------------------------------------------------------------- the simple form

  /** The characters before and after the cursor. */
  datatype Zipper = Zipper(
    before: string,
    after: string,
    history: seq<string>,
    index: Option<nat>,
    draft: Option<string>)

  datatype Edit =
    | Insert(text: string)
    | Backspace
    | Left
    | Right
    | Up
    | Down
    | Submit(sql: string)
    | Replace(text: string)
    | Offer(text: string)
    | Clear

  predicate ZipInRange(z: Zipper) {
    z.index.Some? ==> z.index.value < |z.history|
  }

  function ZipShowing(z: Zipper, text: string): Zipper {
    z.(before := text, after := "")
  }

  function ZipUp(z: Zipper): Zipper
    requires ZipInRange(z)
  {
    if z.history == [] then z
    else
      var next := if z.index.None? then |z.history| - 1 else if z.index.value == 0 then 0 else z.index.value - 1;
      ZipShowing(z, z.history[next]).(
        index := Some(next),
        draft := if z.index.None? then Some(z.before + z.after) else z.draft)
  }

  function ZipDown(z: Zipper): Zipper {
    if z.index.None? then z
    else if z.index.value + 1 < |z.history| then
      ZipShowing(z, z.history[z.index.value + 1]).(index := Some(z.index.value + 1))
    else ZipShowing(z, if z.draft.Some? then z.draft.value else z.before + z.after).(index := None, draft := None)
  }

  function Zipped(z: Zipper, edit: Edit): Zipper
    requires ZipInRange(z)
  {
    match edit
    case Insert(text) => z.(before := z.before + text, index := None)
    case Backspace => if z.before == "" then z else z.(before := z.before[..|z.before| - 1], index := None)
    case Left =>
      if z.before == "" then z
      else z.(before := z.before[..|z.before| - 1], after := [z.before[|z.before| - 1]] + z.after)
    case Right => if z.after == "" then z else z.(before := z.before + [z.after[0]], after := z.after[1..])
    case Up => ZipUp(z)
    case Down => ZipDown(z)
    case Submit(sql) => Zipper(sql, "", Recorded(z.history, sql), None, None)
    case Replace(text) => ZipShowing(z, text).(index := None, draft := None)
    case Offer(text) => ZipShowing(z, text)
    case Clear => ZipShowing(z, "").(index := None, draft := None)
  }

  function Edited(e: Editor, edit: Edit): Editor
    requires HistoryInRange(e)
  {
    match edit
    case Insert(text) => Inserted(e, Encode(text))
    case Backspace => Backspaced(e)
    case Left => MovedLeft(e)
    case Right => MovedRight(e)
    case Up => HistoryUp(e)
    case Down => HistoryDown(e)
    case Submit(sql) => Submitted(e, sql)
    case Replace(text) => Replaced(e, text)
    case Offer(text) => Showing(e, Encode(text))
    case Clear => Replaced(e, "")
  }

  predicate Shows(e: Editor, z: Zipper) {
    && e.text == Encode(z.before + z.after)
    && e.cursor == |Encode(z.before)|
    && e.history == z.history
    && e.index == z.index
    && ZipInRange(z)
    && e.draft == (if z.draft.Some? then Some(Encode(z.draft.value)) else None)
  }

  // ---------------------------------------------------------------- refinement

  lemma CutAtCursor(before: string, after: string)
    ensures var text := Encode(before + after); var c := |Encode(before)|;
            c <= |text| && text[..c] == Encode(before) && text[c..] == Encode(after)
  {
    hide Encode;
    EncodeConcat(before, after);
  }

  /** In a state that shows a zipper the cursor lies in the text, on a character boundary, and
      clamping leaves it where it is. */
  lemma ClampIsNoOp(before: string, after: string)
    ensures var text := Encode(before + after); var c := |Encode(before)|;
            c <= |text| && IsCharBoundary(text, c) && Clamped(text, c) == c
  {
    hide Encode;
    CutAtCursor(before, after);
    PrefixIsBoundary(before + after, |before|);
    assert (before + after)[..|before|] == before;
  }

  lemma PreviousIsPrefix(before: string, after: string)
    ensures var text := Encode(before + after); var c := |Encode(before)|;
            && IsCharBoundary(text, c)
            && PreviousCharBoundary(text, c) == if before == "" then 0 else |Encode(before[..|before| - 1])|
  {
    hide Encode, CharIndices, IsCharBoundary;
    ClampIsNoOp(before, after);
    CutAtCursor(before, after);
    CharIndicesOf(before);
    EmptyEncoding();
  }

  lemma NextIsPrefix(before: string, after: string)
    ensures var text := Encode(before + after); var c := |Encode(before)|;
            && IsCharBoundary(text, c)
            && NextCharBoundary(text, c) == if after == "" then c else |Encode(before + [after[0]])|
  {
    hide Encode, CharIndices, IsCharBoundary;
    ClampIsNoOp(before, after);
    CutAtCursor(before, after);
    CharIndicesOf(after);
    if after == "" {
      assert before + after == before;
    } else {
      EncodeConcat(before, [after[0]]);
      assert after[..1] == [after[0]];
      if |after| == 1 {
        assert before + after == before + [after[0]];
      }
    }
  }

  lemma InsertRefines(e: Editor, z: Zipper, text: string)
    requires Shows(e, z)
    ensures Shows(Inserted(e, Encode(text)), z.(before := z.before + text, index := None))
  {
    hide Encode, Clamped;
    ClampIsNoOp(z.before, z.after);
    CutAtCursor(z.before, z.after);
    EncodeConcat(z.before, text);
    EncodeConcat(z.before + text, z.after);
  }

  lemma BackspaceRefines(e: Editor, z: Zipper)
    requires Shows(e, z)
    ensures Shows(Backspaced(e), Zipped(z, Backspace))
  {
    hide Encode, Clamped, PreviousCharBoundary;
    ClampIsNoOp(z.before, z.after);
    PreviousIsPrefix(z.before, z.after);
    CutAtCursor(z.before, z.after);
    EmptyEncoding();
    if z.before != "" {
      var shorter, last := z.before[..|z.before| - 1], [z.before[|z.before| - 1]];
      assert z.before == shorter + last;
      CutAtCursor(shorter, last);
      EncodeConcat(shorter, z.after);
      NonEmptyEncoding(z.before);
    }
  }

  lemma NonEmptyEncoding(s: string)
    requires s != ""
    ensures Encode(s) != []
  {
  }

  lemma LeftRefines(e: Editor, z: Zipper)
    requires Shows(e, z)
    ensures Shows(MovedLeft(e), Zipped(z, Left))
  {
    hide Encode, Clamped, PreviousCharBoundary;
    ClampIsNoOp(z.before, z.after);
    PreviousIsPrefix(z.before, z.after);
    EmptyEncoding();
    if z.before != "" {
      var shorter, last := z.before[..|z.before| - 1], [z.before[|z.before| - 1]];
      assert shorter + (last + z.after) == z.before + z.after;
    }
  }

  lemma RightRefines(e: Editor, z: Zipper)
    requires Shows(e, z)
    ensures Shows(MovedRight(e), Zipped(z, Right))
  {
    hide Encode, Clamped, NextCharBoundary;
    ClampIsNoOp(z.before, z.after);
    NextIsPrefix(z.before, z.after);
    if z.after != "" {
      assert (z.before + [z.after[0]]) + z.after[1..] == z.before + z.after;
    }
  }

  lemma ShowingRefines(e: Editor, z: Zipper, text: string)
    requires Shows(e, z)
    ensures Shows(Showing(e, Encode(text)), ZipShowing(z, text))
  {
    hide Encode;
    assert text + "" == text;
  }

  /** One edit of the bytes is one edit of the characters. */
  lemma EditRefines(e: Editor, z: Zipper, edit: Edit)
    requires Shows(e, z)
    ensures HistoryInRange(e) && Shows(Edited(e, edit), Zipped(z, edit))
  {
    hide Encode, Inserted, Backspaced, MovedLeft, MovedRight, Recorded;
    match edit
    case Insert(text) => InsertRefines(e, z, text);
    case Backspace => BackspaceRefines(e, z);
    case Left => LeftRefines(e, z);
    case Right => RightRefines(e, z);
    case Up => assert forall s: string :: s + "" == s;
    case Down => assert forall s: string :: s + "" == s;
    case Submit(sql) => assert sql + "" == sql;
    case Replace(text) => ShowingRefines(e, z, text);
    case Offer(text) => ShowingRefines(e, z, text);
    case Clear => ShowingRefines(e, z, "");
  }

  ghost function EditedBy(e: Editor, z: Zipper, edits: seq<Edit>): (Editor, Zipper)
    requires Shows(e, z)
    ensures Shows(EditedBy(e, z, edits).0, EditedBy(e, z, edits).1)
  {
    if edits == [] then (e, z)
    else
      var (f, y) := EditedBy(e, z, edits[..|edits| - 1]);
      var edit := edits[|edits| - 1];
      EditRefines(f, y, edit);
      (Edited(f, edit), Zipped(y, edit))
  }

  /** After any edits the cursor is within the text and on a character boundary, so clamping never
      moves it and the text can be cut there. */
  lemma CursorStaysOnBoundary(text: string, edits: seq<Edit>)
    ensures var z := Zipper(text, "", [], None, None);
            var e := Editor(Encode(text), |Encode(text)|, [], None, None);
            && Shows(e, z)
            && var (f, y) := EditedBy(e, z, edits);
               && f.cursor <= |f.text| && IsCharBoundary(f.text, f.cursor)
               && Clamped(f.text, f.cursor) == f.cursor
               && f.text[..f.cursor] == Encode(y.before) && f.text[f.cursor..] == Encode(y.after)
  {
    hide Encode, Clamped, EditedBy;
    assert text + "" == text;
    var e, z := Editor(Encode(text), |Encode(text)|, [], None, None), Zipper(text, "", [], None, None);
    var (f, y) := EditedBy(e, z, edits);
    ClampIsNoOp(y.before, y.after);
    CutAtCursor(y.before, y.after);
  }

  /** The bytes and the cursor determine the characters before and after it. */
  lemma ShownOnce(e: Editor, y: Zipper, z: Zipper)
    requires Shows(e, y) && Shows(e, z)
    ensures y.before == z.before && y.after == z.after
  {
    hide Encode;
    CutAtCursor(y.before, y.after);
    CutAtCursor(z.before, z.after);
    EncodeInjective(y.before, z.before);
    EncodeInjective(y.after, z.after);
  }

  // ---------------------------------------------------------------- what one edit undoes

  /** Backspacing once for each character of an inserted text restores text and cursor. */
  lemma {:induction false} BackspacesUndoInsert(e: Editor, z: Zipper, text: string)
    requires Shows(e, z)
    ensures Shows(Inserted(e, Encode(text)), z.(before := z.before + text, index := None))
    ensures EditedBy(Inserted(e, Encode(text)), z.(before := z.before + text, index := None),
                     seq(|text|, _ => Backspace)).0 == e.(index := None)
    decreases |text|
  {
    hide Encode, Inserted, Backspaced;
    InsertRefines(e, z, text);
    var f, y := Inserted(e, Encode(text)), z.(before := z.before + text, index := None);
    BackspacesShorten(f, y, |text|);
    var (g, x) := EditedBy(f, y, seq(|text|, _ => Backspace));
    assert (z.before + text)[..|z.before|] == z.before;
    SameBytes(g, x, e.(index := None), z.(index := None));
    InsertKeepsRest(e, Encode(text));
  }

  lemma InsertKeepsRest(e: Editor, t: Bytes)
    ensures Inserted(e, t).history == e.history && Inserted(e, t).draft == e.draft
  {
  }

  lemma SameBytes(e: Editor, y: Zipper, f: Editor, z: Zipper)
    requires Shows(e, y) && Shows(f, z) && y == z
    ensures e == f
  {
  }

  lemma OneMoreBackspace(e: Editor, z: Zipper, n: nat)
    requires Shows(e, z) && n > 0
    ensures ZipInRange(EditedBy(e, z, seq(n - 1, _ => Backspace)).1)
    ensures EditedBy(e, z, seq(n, _ => Backspace)).1 == Zipped(EditedBy(e, z, seq(n - 1, _ => Backspace)).1, Backspace)
  {
    hide Encode, Zipped, Edited;
    assert seq(n, _ => Backspace)[..n - 1] == seq(n - 1, _ => Backspace);
  }

  lemma ZippedBackspace(z: Zipper)
    requires ZipInRange(z)
    ensures Zipped(z, Backspace) ==
            if z.before == "" then z else z.(before := z.before[..|z.before| - 1], index := None)
  {
  }

  lemma {:induction false} BackspacesShorten(e: Editor, z: Zipper, n: nat)
    requires Shows(e, z) && n <= |z.before|
    ensures EditedBy(e, z, seq(n, _ => Backspace)).1 ==
            z.(before := z.before[..|z.before| - n], index := if n == 0 then z.index else None)
  {
    hide Encode, Shows, Zipped, Edited;
    if n > 0 {
      BackspacesShorten(e, z, n - 1);
      OneMoreBackspace(e, z, n);
      ZippedBackspace(EditedBy(e, z, seq(n - 1, _ => Backspace)).1);
      assert z.before[..|z.before| - (n - 1)][..|z.before| - n] == z.before[..|z.before| - n];
    } else {
      assert z.before[..|z.before|] == z.before;
    }
  }

  /** Away from the end of the text, moving left undoes moving right, and away from its start the
      other way round. */
  lemma MovesUndoEachOther(e: Editor, z: Zipper)
    requires Shows(e, z)
    ensures z.after != "" ==> MovedLeft(MovedRight(e)) == e
    ensures z.before != "" ==> MovedRight(MovedLeft(e)) == e
    ensures z.after == "" ==> MovedRight(e) == e
    ensures z.before == "" ==> MovedLeft(e) == e
  {
    hide Encode, MovedLeft, MovedRight;
    LeftRefines(e, z);
    RightRefines(e, z);
    var left, right := Zipped(z, Left), Zipped(z, Right);
    LeftRefines(MovedRight(e), right);
    RightRefines(MovedLeft(e), left);
    MovesKeepRest(e);
    MovesKeepRest(MovedRight(e));
    MovesKeepRest(MovedLeft(e));
    if z.after != "" {
      assert Zipped(right, Left).before == z.before && Zipped(right, Left).after == z.after;
    }
    if z.before != "" {
      assert Zipped(left, Right).before == z.before && Zipped(left, Right).after == z.after;
    }
  }

  lemma MovesKeepRest(e: Editor)
    ensures MovedLeft(e).text == e.text && MovedRight(e).text == e.text
  {
  }

  // ---------------------------------------------------------------- line and column, in characters

  function Newlines(s: string): nat {
    if s == "" then 0 else (if s[0] == '\n' then 1 else 0) + Newlines(s[1..])
  }

  function LastLine(s: string): string {
    if s == "" || s[|s| - 1] == '\n' then "" else LastLine(s[..|s| - 1]) + [s[|s| - 1]]
  }

  lemma {:induction false} CountNewlinesConcat(a: Bytes, b: Bytes)
    ensures CountNewlines(a + b) == CountNewlines(a) + CountNewlines(b)
  {
    if a == [] {
      assert a + b == b;
    } else {
      assert (a + b)[1..] == a[1..] + b;
      CountNewlinesConcat(a[1..], b);
    }
  }

  lemma {:induction false} NoNewlines(a: Bytes)
    requires NEWLINE !in a
    ensures CountNewlines(a) == 0
  {
    if a != [] {
      NoNewlines(a[1..]);
    }
  }

  lemma {:induction false} CountNewlinesOf(s: string)
    ensures CountNewlines(Encode(s)) == Newlines(s)
  {
    hide EncodeChar, CountNewlines;
    if s == "" {
      NoNewlines([]);
    } else {
      CountNewlinesConcat(EncodeChar(s[0]), Encode(s[1..]));
      CountNewlinesOf(s[1..]);
      if s[0] == '\n' {
        SingleNewline();
      } else {
        NoNewlines(EncodeChar(s[0]));
      }
    }
  }

  lemma SingleNewline()
    ensures CountNewlines([NEWLINE]) == 1
  {
  }

  lemma {:induction false} LastSegmentExtended(a: Bytes, b: Bytes)
    requires NEWLINE !in b
    ensures LastSegment(a + b) == LastSegment(a) + b
  {
    if b == [] {
      assert a + b == a;
    } else {
      var front := b[..|b| - 1];
      assert (a + b)[..|a + b| - 1] == a + front;
      LastSegmentExtended(a, front);
      assert b == front + [b[|b| - 1]];
    }
  }

  lemma {:induction false} LastSegmentOf(s: string)
    ensures LastSegment(Encode(s)) == Encode(LastLine(s))
  {
    hide EncodeChar, Encode;
    if s == "" {
      EmptyEncoding();
    } else {
      var front, c := s[..|s| - 1], s[|s| - 1];
      assert s == front + [c];
      EncodeConcat(front, [c]);
      EncodeSingle(c);
      if c == '\n' {
        EmptyEncoding();
      } else {
        LastSegmentExtended(Encode(front), EncodeChar(c));
        LastSegmentOf(front);
        EncodeConcat(LastLine(front), [c]);
      }
    }
  }

  /** The line and column that the bytes give are those of the characters before the cursor. */
  lemma LineColOfZipper(e: Editor, z: Zipper)
    requires Shows(e, z)
    ensures LineCol(e.text, e.cursor) == (Newlines(z.before) + 1, |LastLine(z.before)| + 1)
  {
    hide Encode, CountNewlines, LastSegment, CharIndices;
    CutAtCursor(z.before, z.after);
    CountNewlinesOf(z.before);
    LastSegmentOf(z.before);
    CharIndicesOf(LastLine(z.before));
  }

  // ---------------------------------------------------------------- the history

  predicate HistoryKept(h: seq<string>) {
    && |h| <= HISTORY_LIMIT
    && (forall i :: 0 <= i < |h| ==> h[i] != "" && Trimmed(h[i]))
    && (forall i :: 0 <= i < |h| - 1 ==> h[i] != h[i + 1])
  }

  lemma RecordedKeeps(h: seq<string>, sql: string)
    requires HistoryKept(h)
    ensures HistoryKept(Recorded(h, sql))
  {
    hide Trim, Trimmed;
    TrimIsTrimmed(sql);
  }

  /** What the history would be without its limit. */
  function Unlimited(sqls: seq<string>): seq<string> {
    if sqls == [] then []
    else
      var h, t := Unlimited(sqls[..|sqls| - 1]), Trim(sqls[|sqls| - 1]);
      if t == "" || (h != [] && h[|h| - 1] == t) then h else h + [t]
  }

  function RecordedAll(sqls: seq<string>): seq<string> {
    if sqls == [] then [] else Recorded(RecordedAll(sqls[..|sqls| - 1]), sqls[|sqls| - 1])
  }

  /** The history is the latest part of all submissions, blank ones and repetitions left out. */
  lemma {:induction false} HistoryIsLatest(sqls: seq<string>)
    ensures RecordedAll(sqls) == LastN(Unlimited(sqls), HISTORY_LIMIT) && HistoryKept(RecordedAll(sqls))
  {
    hide Trim;
    if sqls != [] {
      HistoryIsLatest(sqls[..|sqls| - 1]);
      RecordedKeeps(RecordedAll(sqls[..|sqls| - 1]), sqls[|sqls| - 1]);
    }
  }

  function Ups(e: Editor, k: nat): (f: Editor)
    requires HistoryInRange(e)
    ensures HistoryInRange(f) && f.history == e.history
  {
    if k == 0 then e else HistoryUp(Ups(e, k - 1))
  }

  function Downs(e: Editor, k: nat): (f: Editor)
    requires HistoryInRange(e)
    ensures HistoryInRange(f) && f.history == e.history
  {
    if k == 0 then e else HistoryDown(Downs(e, k - 1))
  }

  lemma {:induction false} UpsReach(e: Editor, k: nat)
    requires e.index.None? && e.history != [] && k >= 1
    ensures var f, n := Ups(e, k), |e.history|;
            && f.index == Some(if k <= n then n - k else 0)
            && f.draft == Some(e.text)
            && f.text == Encode(e.history[f.index.value])
  {
    hide Encode;
    if k > 1 {
      UpsReach(e, k - 1);
    }
  }

  lemma {:induction false} DownsReach(e: Editor, k: nat)
    requires e.index.Some? && HistoryInRange(e) && e.draft.Some? && e.text == Encode(e.history[e.index.value])
    ensures var f, i := Downs(e, k), e.index.value;
            if i + k < |e.history| then f.index == Some(i + k) && f.draft == e.draft
              && f.text == Encode(e.history[i + k])
            else f.index.None? && f.text == e.draft.value
  {
    hide Encode;
    if k > 0 {
      DownsReach(e, k - 1);
    }
  }

  /** Going down as often as up brings back the text that was being written. */
  lemma DownsUndoUps(e: Editor, k: nat)
    requires e.index.None?
    ensures Downs(Ups(e, k), k).text == e.text && Downs(Ups(e, k), k).index.None?
  {
    hide Encode;
    if e.history == [] {
      NoHistory(e, k);
      NoHistory(Ups(e, k), k);
    } else if k >= 1 {
      UpsReach(e, k);
      DownsReach(Ups(e, k), k);
    }
  }

  lemma {:induction false} NoHistory(e: Editor, k: nat)
    requires e.index.None? && e.history == []
    ensures Ups(e, k) == e && Downs(e, k) == e
  {
    if k > 0 {
      NoHistory(e, k - 1);
    }
  }
}
