/** The bounded buffer of result rows and the streaming loop that fills it. */
module ResultsBuffer {
  import opened Text

  /** The last n elements, or all of them when there are fewer. */
  function LastN<T>(s: seq<T>, n: nat): (t: seq<T>)
    ensures |t| == if |s| <= n then |s| else n
  {
    if |s| <= n then s else s[|s| - n..]
  }

  /** Keeping the last n rows at every push loses nothing that the last n of the whole stream hold. */
  lemma LastNAppend<T>(s: seq<T>, t: seq<T>, n: nat)
    ensures LastN(LastN(s, n) + t, n) == LastN(s + t, n)
  {
    if |s| > n {
      assert forall i :: 0 <= i < |LastN(s, n) + t| ==> (LastN(s, n) + t)[i] == (s + t)[|s| - n + i];
    }
  }

  /** Row i of the buffer is stream row |s| - |buffer| + i. */
  lemma LastNPosition<T>(s: seq<T>, n: nat, i: nat)
    requires i < |LastN(s, n)|
    ensures LastN(s, n)[i] == s[|s| - |LastN(s, n)| + i]
  {
  }

  class ResultsRingBuffer<T> {
    const capacity: nat
    var rows: seq<T>
    var totalRowsSeen: nat
    ghost var stream: seq<T>

    ghost predicate Valid()
      reads this
    {
      capacity > 0 && rows == LastN(stream, capacity) && totalRowsSeen == |stream|
    }

    constructor (capacity: nat)
      requires capacity > 0
      ensures Valid() && this.capacity == capacity && stream == []
    {
      this.capacity := capacity;
      rows, totalRowsSeen, stream := [], 0, [];
    }

    method Push(row: T)
      requires Valid()
      modifies this
      ensures Valid() && stream == old(stream) + [row]
    {
      LastNAppend(stream, [row], capacity);
      if |rows| == capacity {
        rows := rows[1..];
      }
      rows := rows + [row];
      totalRowsSeen := totalRowsSeen + 1;
      stream := stream + [row];
    }

    /** The stream position of the oldest row still held. */
    function EarliestBufferedIndex(): (index: nat)
      requires Valid()
      reads this
      ensures forall i :: 0 <= i < |rows| ==> index + i < |stream| && rows[i] == stream[index + i]
      ensures index + |rows| == |stream|
    {
      totalRowsSeen - |rows|
    }

    function Get(index: nat): (row: Option<T>)
      requires Valid()
      reads this
      ensures row == if index < |rows| then Some(stream[EarliestBufferedIndex() + index]) else None
    {
      if index < |rows| then Some(rows[index]) else None
    }

    method VisibleRows(start: nat, limit: nat) returns (visible: seq<T>)
      requires Valid()
      ensures |visible| == if start >= |rows| then 0 else if limit <= |rows| - start then limit else |rows| - start
      ensures forall i :: 0 <= i < |visible| ==> Some(visible[i]) == Get(start + i)
    {
      if limit == 0 || start >= |rows| {
        return [];
      }
      var end := if start + limit < |rows| then start + limit else |rows|;
      visible := rows[start..end];
    }
  }

  // ---------------------------------------------------------------- streaming

  datatype StreamEnd = Exhausted | Broken(error: string)

  datatype StreamItem<+T> = Row(row: T) | End | Failed(error: string)

  /** A backend's finite row stream: its rows, how it ends and how it answers a cancel. */
  class RowStream<T> {
    const rows: seq<T>
    const end: StreamEnd
    const cancelError: Option<string>
    var position: nat
    var cancels: nat

    constructor (rows: seq<T>, end: StreamEnd, cancelError: Option<string>)
      ensures this.rows == rows && this.end == end && this.cancelError == cancelError
      ensures position == 0 && cancels == 0
    {
      this.rows, this.end, this.cancelError := rows, end, cancelError;
      position, cancels := 0, 0;
    }

    method NextRow() returns (item: StreamItem<T>)
      requires position <= |rows|
      modifies this
      ensures cancels == old(cancels)
      ensures old(position) < |rows| ==> item == Row(rows[old(position)]) && position == old(position) + 1
      ensures old(position) == |rows| ==> position == |rows|
      ensures old(position) == |rows| ==> item == (match end case Exhausted => End case Broken(error) => Failed(error))
    {
      if position < |rows| {
        item := Row(rows[position]);
        position := position + 1;
      } else {
        item := match end case Exhausted => End case Broken(error) => Failed(error);
      }
    }

    method Cancel() returns (error: Option<string>)
      modifies this
      ensures position == old(position) && cancels == old(cancels) + 1 && error == cancelError
    {
      cancels := cancels + 1;
      error := cancelError;
    }
  }

  datatype RunResult = Finished(rowsStreamed: nat, wasCancelled: bool) | BackendError(error: string)

  /** The number of rows pulled: up to the first check that sees the cancellation, or all. */
  function Pulled(cancelled: nat -> bool, i: nat, total: nat): (k: nat)
    requires i <= total
    ensures i <= k <= total && (forall j :: i <= j < k ==> !cancelled(j))
    ensures k < total ==> cancelled(k)
    decreases total - i
  {
    if i == total || cancelled(i) then i else Pulled(cancelled, i + 1, total)
  }

  /** `refused` is the backend's error when it does not start the query, and `cancelled(i)` is what the
      token says when it is read with i rows pulled. */
  method ExecuteStreaming<T>(refused: Option<string>, stream: RowStream<T>, buffer: ResultsRingBuffer<T>,
                             cancelled: nat -> bool)
    returns (result: RunResult)
    requires buffer.Valid() && stream.position == 0 && stream.cancels == 0
    modifies stream, buffer
    ensures buffer.Valid()
    ensures refused.Some? ==>
              && result == BackendError(refused.value)
              && buffer.rows == old(buffer.rows) && buffer.stream == old(buffer.stream)
              && stream.position == 0 && stream.cancels == 0
    ensures refused.None? ==>
            var k := Pulled(cancelled, 0, |stream.rows|);
            && stream.position == k
            && buffer.stream == old(buffer.stream) + stream.rows[..k]
            && buffer.rows == LastN(old(buffer.rows) + stream.rows[..k], buffer.capacity)
            && stream.cancels == (if cancelled(k) then 1 else 0)
            && result == (if cancelled(k) then
                            match stream.cancelError
                            case None => Finished(k, true)
                            case Some(error) => BackendError(error)
                          else
                            match stream.end
                            case Exhausted => Finished(k, false)
                            case Broken(error) => BackendError(error))
  {
    if refused.Some? {
      return BackendError(refused.value);
    }
    ghost var total := |stream.rows|;
    ghost var before := buffer.stream;
    var rowsStreamed := 0;
    assert before + stream.rows[..0] == before;
    while !cancelled(rowsStreamed)
      invariant rowsStreamed == stream.position <= total && stream.cancels == 0
      invariant Pulled(cancelled, rowsStreamed, total) == Pulled(cancelled, 0, total)
      invariant buffer.Valid() && buffer.stream == before + stream.rows[..rowsStreamed]
      decreases total - rowsStreamed
    {
      var item := stream.NextRow();
      match item
      case Failed(error) =>
        LastNAppend(before, stream.rows[..rowsStreamed], buffer.capacity);
        return BackendError(error);
      case End =>
        LastNAppend(before, stream.rows[..rowsStreamed], buffer.capacity);
        return Finished(rowsStreamed, false);
      case Row(row) =>
        buffer.Push(row);
        rowsStreamed := rowsStreamed + 1;
        assert stream.rows[..rowsStreamed] == stream.rows[..rowsStreamed - 1] + [row];
        assert before + stream.rows[..rowsStreamed] == before + stream.rows[..rowsStreamed - 1] + [row];
    }

    LastNAppend(before, stream.rows[..rowsStreamed], buffer.capacity);
    var error := stream.Cancel();
    if error.Some? {
      return BackendError(error.value);
    }
    result := Finished(rowsStreamed, true);
  }
}
