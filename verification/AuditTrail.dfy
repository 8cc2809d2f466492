/** The audit trail: one growing file and a shifting family of archives. */
module AuditTrail {
  import opened Text
  import opened Utf8

  /** What one append left in a file: the whole line, or a front part of it when the write failed. */
  type Chunk = Bytes

  type File = seq<Chunk>

  /** Slot 0 is the current file and slot k the k-th archive; `written` is every chunk ever written. */
  datatype Disk = Disk(files: map<nat, File>, written: seq<Chunk>)

  datatype Retention = Retention(maxBytes: u64, maxArchives: nat)
  {
    /** At least one archive is kept. */
    function Archives(): (n: nat)
      ensures n >= 1
    {
      if maxArchives == 0 then 1 else maxArchives
    }
  }

  function FileBytes(file: File): nat {
    if file == [] then 0 else FileBytes(file[..|file| - 1]) + |file[|file| - 1]|
  }

  function Capped(n: nat): u64 {
    if n <= U64_MAX then n else U64_MAX
  }

  function SatSum(a: u64, b: u64): u64 {
    Capped(a + b)
  }

  function At(files: map<nat, File>, slot: nat): File {
    if slot in files then files[slot] else []
  }

  /** Archives n down to 1, then the current file. */
  function Chain(files: map<nat, File>, n: nat): File {
    if n == 0 then At(files, 0) else At(files, n) + Chain(files, n - 1)
  }

  // ---------------------------------------------------------------- single steps of the file system

  /** A line reaches the file in any number of write calls: the first starts a chunk, the others extend it. */
  datatype Op = Remove(slot: nat) | Rename(from: nat) | Create | Write(chunk: Chunk) | Extend(bytes: Bytes)

  /** The last chunk has grown. */
  function Grown(chunks: seq<Chunk>, bytes: Bytes): (g: seq<Chunk>)
    requires chunks != []
    ensures |g| == |chunks|
  {
    chunks[..|chunks| - 1] + [chunks[|chunks| - 1] + bytes]
  }

  function Moved(files: map<nat, File>, from: nat): map<nat, File>
    requires from in files
  {
    (files - {from})[from + 1 := files[from]]
  }

  function Applied(d: Disk, op: Op): Disk {
    match op
    case Remove(slot) => d.(files := d.files - {slot})
    case Rename(from) => if from in d.files then d.(files := Moved(d.files, from)) else d
    case Create => d.(files := d.files[0 := []])
    case Write(chunk) => Disk(d.files[0 := At(d.files, 0) + [chunk]], d.written + [chunk])
    case Extend(bytes) =>
      if At(d.files, 0) == [] || d.written == [] then d
      else Disk(d.files[0 := Grown(At(d.files, 0), bytes)], Grown(d.written, bytes))
  }

  /** The steps that the trail takes: only the oldest archive is removed, no rename lands on an
      existing file, and a line goes to a file with room for it or to an empty one. */
  predicate Legal(d: Disk, policy: Retention, op: Op) {
    match op
    case Remove(slot) => slot == policy.Archives() && slot in d.files
    case Rename(from) => from < policy.Archives() && from in d.files && from + 1 !in d.files
    case Create => 0 !in d.files
    case Write(chunk) =>
      && 0 in d.files
      && (FileBytes(d.files[0]) + |chunk| <= policy.maxBytes || d.files[0] == [] || policy.maxBytes == U64_MAX)
    case Extend(bytes) =>
      && 0 in d.files && d.files[0] != [] && d.written != []
      && (FileBytes(d.files[0]) + |bytes| <= policy.maxBytes || |d.files[0]| == 1 || policy.maxBytes == U64_MAX)
  }

  function Replayed(journal: seq<Op>): Disk {
    if journal == [] then Disk(map[], [])
    else Applied(Replayed(journal[..|journal| - 1]), journal[|journal| - 1])
  }

  predicate LegalJournal(journal: seq<Op>, policy: Retention) {
    journal != [] ==>
      && LegalJournal(journal[..|journal| - 1], policy)
      && Legal(Replayed(journal[..|journal| - 1]), policy, journal[|journal| - 1])
  }

  // ---------------------------------------------------------------- what every step keeps

  predicate IsSuffix<T(==)>(s: seq<T>, t: seq<T>) {
    |s| <= |t| && t[|t| - |s|..] == s
  }

  predicate Orderly(d: Disk, policy: Retention) {
    && (forall k :: k in d.files ==> k <= policy.Archives())
    && IsSuffix(Chain(d.files, policy.Archives()), d.written)
  }

  predicate Sized(d: Disk, policy: Retention) {
    policy.maxBytes < U64_MAX ==>
      forall k :: k in d.files ==> FileBytes(d.files[k]) <= policy.maxBytes || |d.files[k]| == 1
  }

  lemma {:induction false} ChainFramed(f: map<nat, File>, g: map<nat, File>, n: nat)
    requires forall k: nat :: k <= n ==> At(f, k) == At(g, k)
    ensures Chain(f, n) == Chain(g, n)
  {
    if n > 0 {
      ChainFramed(f, g, n - 1);
    }
  }

  lemma {:induction false} RenameKeepsChain(files: map<nat, File>, from: nat, n: nat)
    requires from in files && from + 1 !in files && from < n
    ensures Chain(Moved(files, from), n) == Chain(files, n)
  {
    var moved := Moved(files, from);
    if from + 1 < n {
      RenameKeepsChain(files, from, n - 1);
    } else if from > 0 {
      ChainFramed(files, moved, from - 1);
      assert Chain(moved, from) == Chain(files, from - 1);
      assert Chain(files, n) == [] + (files[from] + Chain(files, from - 1));
    } else {
      assert Chain(moved, 1) == files[0] + [] && Chain(files, 1) == [] + files[0];
    }
  }

  lemma {:induction false} WriteExtendsChain(files: map<nat, File>, chunk: Chunk, n: nat)
    ensures Chain(files[0 := At(files, 0) + [chunk]], n) == Chain(files, n) + [chunk]
  {
    if n > 0 {
      WriteExtendsChain(files, chunk, n - 1);
      var g := files[0 := At(files, 0) + [chunk]];
      assert At(g, n) == At(files, n);
      assert At(files, n) + (Chain(files, n - 1) + [chunk]) == At(files, n) + Chain(files, n - 1) + [chunk];
    }
  }

  lemma {:induction false} ExtendGrowsChain(files: map<nat, File>, bytes: Bytes, n: nat)
    requires At(files, 0) != []
    ensures Chain(files, n) != []
    ensures Chain(files[0 := Grown(At(files, 0), bytes)], n) == Grown(Chain(files, n), bytes)
  {
    if n > 0 {
      ExtendGrowsChain(files, bytes, n - 1);
      var g := files[0 := Grown(At(files, 0), bytes)];
      assert At(g, n) == At(files, n);
      GrownTail(At(files, n), Chain(files, n - 1), bytes);
    }
  }

  lemma GrownTail(front: seq<Chunk>, chunks: seq<Chunk>, bytes: Bytes)
    requires chunks != []
    ensures Grown(front + chunks, bytes) == front + Grown(chunks, bytes)
  {
  }

  /** Only removing the oldest archive loses chunks, and it loses the oldest ones. */
  lemma ChainAfter(d: Disk, policy: Retention, op: Op)
    requires Legal(d, policy, op)
    ensures op.Extend? ==> Chain(d.files, policy.Archives()) != []
    ensures var n := policy.Archives();
            Chain(Applied(d, op).files, n) ==
            match op
            case Remove(_) => Chain(d.files, n)[|d.files[n]|..]
            case Rename(_) => Chain(d.files, n)
            case Create => Chain(d.files, n)
            case Write(chunk) => Chain(d.files, n) + [chunk]
            case Extend(bytes) => Grown(Chain(d.files, n), bytes)
  {
    var n := policy.Archives();
    match op
    case Remove(_) => ChainFramed(d.files, d.files - {n}, n - 1);
    case Rename(from) => RenameKeepsChain(d.files, from, n);
    case Create => ChainFramed(d.files, d.files[0 := []], n);
    case Write(chunk) => WriteExtendsChain(d.files, chunk, n);
    case Extend(bytes) => ExtendGrowsChain(d.files, bytes, n);
  }

  lemma StepKeepsOrder(d: Disk, policy: Retention, op: Op)
    requires Orderly(d, policy) && Legal(d, policy, op)
    ensures Orderly(Applied(d, op), policy)
  {
    hide Chain;
    ChainAfter(d, policy, op);
    var n := policy.Archives();
    var chain := Chain(d.files, n);
    match op
    case Remove(_) =>
      OldestFirst(d.files, n);
      assert d.written[|d.written| - |chain|..][|d.files[n]|..] == chain[|d.files[n]|..];
    case Rename(_) =>
    case Create =>
    case Write(chunk) =>
      assert (d.written + [chunk])[|d.written| - |chain|..] == d.written[|d.written| - |chain|..] + [chunk];
    case Extend(bytes) =>
      var front := d.written[..|d.written| - |chain|];
      assert d.written == front + chain;
      GrownTail(front, chain, bytes);
  }

  lemma OldestFirst(files: map<nat, File>, n: nat)
    requires n > 0
    ensures |At(files, n)| <= |Chain(files, n)|
  {
  }

  lemma FileBytesGrow(file: File, chunk: Chunk)
    ensures FileBytes(file + [chunk]) == FileBytes(file) + |chunk|
  {
    assert (file + [chunk])[..|file|] == file;
  }

  lemma FileBytesGrown(file: File, bytes: Bytes)
    requires file != []
    ensures FileBytes(Grown(file, bytes)) == FileBytes(file) + |bytes|
  {
    var front := file[..|file| - 1];
    FileBytesGrow(front, file[|file| - 1]);
    FileBytesGrow(front, file[|file| - 1] + bytes);
    assert file == front + [file[|file| - 1]];
  }

  lemma StepKeepsSizes(d: Disk, policy: Retention, op: Op)
    requires Sized(d, policy) && Legal(d, policy, op)
    ensures Sized(Applied(d, op), policy)
  {
    hide FileBytes;
    EmptyFile();
    if op.Write? {
      FileBytesGrow(At(d.files, 0), op.chunk);
    } else if op.Extend? {
      FileBytesGrown(At(d.files, 0), op.bytes);
    }
  }

  lemma EmptyFile()
    ensures FileBytes([]) == 0
  {
  }

  lemma {:induction false} EveryStateKept(journal: seq<Op>, policy: Retention, k: nat)
    requires LegalJournal(journal, policy) && k <= |journal|
    ensures LegalJournal(journal[..k], policy)
    ensures Orderly(Replayed(journal[..k]), policy) && Sized(Replayed(journal[..k]), policy)
  {
    if k < |journal| {
      EveryStateKept(journal[..|journal| - 1], policy, k);
      assert journal[..|journal| - 1][..k] == journal[..k];
    } else {
      assert journal[..k] == journal;
      if journal != [] {
        hide Orderly, Sized, Legal, Applied;
        var front := journal[..|journal| - 1];
        EveryStateKept(front, policy, |front|);
        assert front[..|front|] == front;
        StepKeepsOrder(Replayed(front), policy, journal[|journal| - 1]);
        StepKeepsSizes(Replayed(front), policy, journal[|journal| - 1]);
      } else {
        EmptyDisk(policy);
      }
    }
  }

  lemma {:induction false} EmptyChain(n: nat)
    ensures Chain(map[], n) == []
  {
    if n > 0 {
      EmptyChain(n - 1);
    }
  }

  lemma EmptyDisk(policy: Retention)
    ensures Orderly(Disk(map[], []), policy) && Sized(Disk(map[], []), policy)
  {
    EmptyChain(policy.Archives());
  }

  lemma {:induction false} FewSlots(slots: set<nat>, n: nat)
    requires forall k :: k in slots ==> k <= n
    ensures |slots| <= n + 1
  {
    if n in slots {
      if n > 0 {
        FewSlots(slots - {n}, n - 1);
      } else {
        assert slots == {0};
      }
    } else if n > 0 {
      FewSlots(slots, n - 1);
    } else {
      assert slots == {};
    }
  }

  /** After every single step of the file system, each write call included, in every history of the trail
      from an empty directory: the archives, oldest first, followed by the current file hold a suffix of all that
      was written, nothing doubled or reordered; there are at most one more files than archives; and
      below the largest possible limit each file is within the limit or holds one line only. */
  lemma EveryStepIsSafe(journal: seq<Op>, policy: Retention, k: nat)
    requires LegalJournal(journal, policy) && k <= |journal|
    ensures var d := Replayed(journal[..k]); var n := policy.Archives();
            && |d.files| <= n + 1
            && IsSuffix(Chain(d.files, n), d.written)
            && (policy.maxBytes < U64_MAX ==>
                  forall slot :: slot in d.files ==>
                    FileBytes(d.files[slot]) <= policy.maxBytes || |d.files[slot]| == 1)
    ensures k < |journal| && journal[k].Rename? ==> journal[k].from + 1 !in Replayed(journal[..k]).files
  {
    hide LegalJournal, Replayed, Chain, FileBytes, Legal;
    EveryStateKept(journal, policy, k);
    FewSlots(Replayed(journal[..k]).files.Keys, policy.Archives());
    assert |Replayed(journal[..k]).files| == |Replayed(journal[..k]).files.Keys|;
    if k < |journal| {
      StepWasLegal(journal, policy, k);
      RenameIsFree(Replayed(journal[..k]), policy, journal[k]);
    }
  }

  lemma StepWasLegal(journal: seq<Op>, policy: Retention, k: nat)
    requires LegalJournal(journal, policy) && k < |journal|
    ensures Legal(Replayed(journal[..k]), policy, journal[k])
  {
    EveryStateKept(journal, policy, k + 1);
    assert journal[..k + 1][..k] == journal[..k];
  }

  lemma RenameIsFree(d: Disk, policy: Retention, op: Op)
    requires Legal(d, policy, op)
    ensures op.Rename? ==> op.from + 1 !in d.files
  {
  }

  // ---------------------------------------------------------------- limits

  /** The bytes of a file, chunk after chunk. */
  function Joined(file: File): Bytes {
    if file == [] then [] else file[0] + Joined(file[1..])
  }

  lemma {:induction false} JoinedGrows(file: File, chunk: Chunk)
    ensures Joined(file + [chunk]) == Joined(file) + chunk
  {
    if file == [] {
      assert [] + [chunk] == [chunk] && [chunk][1..] == [];
      assert Joined([chunk]) == chunk + Joined([]);
    } else {
      assert (file + [chunk])[1..] == file[1..] + [chunk];
      JoinedGrows(file[1..], chunk);
    }
  }

  lemma {:induction false} FileBytesCount(file: File)
    ensures FileBytes(file) == |Joined(file)|
  {
    if file != [] {
      var front, last := file[..|file| - 1], file[|file| - 1];
      FileBytesCount(front);
      JoinedGrows(front, last);
      assert front + [last] == file;
    }
  }

  /** A line fits if its bytes and those of the current file are within the limit; at the largest limit
      every line does. At least one archive is kept, and as many as the policy says. */
  lemma FitsIff(files: map<nat, File>, line: Bytes, policy: Retention)
    ensures Fits(files, line, policy) <==>
            policy.maxBytes == U64_MAX
            || (if 0 in files then |Joined(files[0])| else 0) + |line| <= policy.maxBytes
    ensures policy.Archives() == if policy.maxArchives >= 1 then policy.maxArchives else 1
  {
    FileBytesCount(At(files, 0));
  }

  // ---------------------------------------------------------------- the trail

  datatype AuditError = CreateDirError | MetadataError | DeleteError | RotateError | WriteError

  datatype AppendResult = Done | Failed(error: AuditError)

  /** Every file has moved to the next archive; the oldest archive is gone. */
  ghost predicate IsShift(before: map<nat, File>, after: map<nat, File>, n: nat) {
    && 0 !in after
    && (forall k: nat {:trigger k in after} :: 1 <= k ==> (k in after <==> k <= n && k - 1 in before))
    && (forall k: nat {:trigger after[k]} :: 1 <= k && k in after ==> after[k] == before[k - 1])
  }

  predicate Fits(files: map<nat, File>, line: Bytes, policy: Retention) {
    SatSum(Capped(FileBytes(At(files, 0))), Capped(|line|)) <= policy.maxBytes
  }

  /** The files of slots above i have moved up, slot i + 1 is free, and slots up to i are as before. */
  ghost predicate Shifting(before: map<nat, File>, now: map<nat, File>, n: nat, i: nat) {
    && i + 1 !in now
    && (forall k: nat {:trigger k in now} :: i + 2 <= k ==> (k in now <==> k <= n && k - 1 in before))
    && (forall k: nat {:trigger now[k]} :: i + 2 <= k && k in now ==> now[k] == before[k - 1])
    && (forall k: nat {:trigger k in now} :: k <= i ==> (k in now <==> k in before))
    && (forall k: nat {:trigger now[k]} :: k <= i && k in now ==> now[k] == before[k])
  }

  lemma ShiftStarts(before: map<nat, File>, n: nat)
    requires n >= 1 && forall k :: k in before ==> k <= n
    ensures Shifting(before, before - {n}, n, n - 1)
  {
  }

  lemma ShiftSkips(before: map<nat, File>, now: map<nat, File>, n: nat, i: nat)
    requires Shifting(before, now, n, i) && i >= 1 && i !in now
    ensures Shifting(before, now, n, i - 1)
  {
  }

  lemma ShiftMoves(before: map<nat, File>, now: map<nat, File>, n: nat, i: nat)
    requires Shifting(before, now, n, i) && 1 <= i < n && i in now
    ensures Shifting(before, Moved(now, i), n, i - 1)
  {
  }

  lemma ShiftEnds(before: map<nat, File>, now: map<nat, File>, n: nat)
    requires Shifting(before, now, n, 0) && n >= 1
    ensures IsShift(before, if 0 in now then Moved(now, 0) else now, n)
  {
  }

  lemma ShiftIsFree(before: map<nat, File>, now: map<nat, File>, n: nat, i: nat)
    requires Shifting(before, now, n, i)
    ensures i + 1 !in now
  {
  }

  class FileAuditTrail {
    const retention: Retention
    var files: map<nat, File>
    /** Every effect on the file system since the directory was empty. */
    ghost var journal: seq<Op>
    /** The number of file system operations that have failed. */
    ghost var faults: nat

    ghost predicate Valid()
      reads this`files, this`journal
    {
      LegalJournal(journal, retention) && files == Replayed(journal).files
    }

    ghost function Written(): seq<Chunk>
      reads this`journal
    {
      Replayed(journal).written
    }

    constructor (retention: Retention)
      ensures Valid() && files == map[] && journal == [] && faults == 0 && this.retention == retention
    {
      this.retention, files, journal, faults := retention, map[], [], 0;
    }

    ghost method Record(op: Op)
      requires LegalJournal(journal, retention) && Legal(Replayed(journal), retention, op)
      modifies this`journal
      ensures journal == old(journal) + [op]
      ensures LegalJournal(journal, retention)
      ensures Replayed(journal) == Applied(Replayed(old(journal)), op)
    {
      journal := journal + [op];
      assert journal[..|journal| - 1] == old(journal);
    }

    /** Any operation may fail. */
    method Attempt() returns (ok: bool)
      modifies this`faults
      ensures faults == old(faults) + if ok then 0 else 1
    {
      ok := *;
      if !ok {
        faults := faults + 1;
      }
    }

    /** A failed operation has no effect. */
    method RemoveFile(slot: nat) returns (ok: bool)
      requires Valid() && slot == retention.Archives() && slot in files
      modifies this
      ensures Valid() && old(journal) <= journal && Written() == old(Written())
      ensures files == if ok then old(files) - {slot} else old(files)
      ensures faults == old(faults) + if ok then 0 else 1
    {
      hide LegalJournal, Replayed;
      ok := Attempt();
      if ok {
        files := files - {slot};
        Record(Remove(slot));
      }
    }

    method RenameFile(from: nat) returns (ok: bool)
      requires Valid() && from < retention.Archives() && from in files && from + 1 !in files
      modifies this
      ensures Valid() && old(journal) <= journal && Written() == old(Written())
      ensures files == if ok then Moved(old(files), from) else old(files)
      ensures faults == old(faults) + if ok then 0 else 1
    {
      hide LegalJournal, Replayed;
      ok := Attempt();
      if ok {
        files := Moved(files, from);
        Record(Rename(from));
      }
    }

    /** Opening for append creates the file when it is missing. */
    method OpenFile() returns (ok: bool)
      requires Valid()
      modifies this
      ensures Valid() && old(journal) <= journal && Written() == old(Written())
      ensures files == if ok && 0 !in old(files) then old(files)[0 := []] else old(files)
      ensures faults == old(faults) + if ok then 0 else 1
    {
      hide LegalJournal, Replayed;
      ok := Attempt();
      if ok && 0 !in files {
        files := files[0 := []];
        Record(Create);
      }
    }

    /** One write call that is not the first of its line. */
    method ExtendLine(bytes: Bytes)
      requires Valid() && 0 in files && files[0] != [] && Written() != []
      requires FileBytes(files[0]) + |bytes| <= retention.maxBytes || |files[0]| == 1 || retention.maxBytes == U64_MAX
      modifies this`files, this`journal
      ensures Valid() && old(journal) <= journal
      ensures files == old(files)[0 := Grown(old(files)[0], bytes)] && Written() == Grown(old(Written()), bytes)
    {
      hide LegalJournal, Replayed, FileBytes, Grown;
      files := files[0 := Grown(files[0], bytes)];
      Record(Extend(bytes));
    }

    method StartLine(bytes: Bytes)
      requires Valid() && 0 in files
      requires FileBytes(files[0]) + |bytes| <= retention.maxBytes || files[0] == [] || retention.maxBytes == U64_MAX
      modifies this`files, this`journal
      ensures Valid() && old(journal) <= journal
      ensures files == old(files)[0 := old(files)[0] + [bytes]] && Written() == old(Written()) + [bytes]
    {
      hide LegalJournal, Replayed, FileBytes;
      files := files[0 := files[0] + [bytes]];
      Record(Write(bytes));
    }

    /** The text and its newline are written one after the other, each in as many write calls as it takes; a
        call that fails leaves the front part of the line that the calls before it have written. */
    method WriteLine(rendered: Bytes) returns (ok: bool)
      requires Valid() && 0 in files
      requires FileBytes(files[0]) + |rendered| + 1 <= retention.maxBytes || files[0] == []
               || retention.maxBytes == U64_MAX
      modifies this
      ensures Valid() && old(journal) <= journal && faults == old(faults) + if ok then 0 else 1
      ensures var line := rendered + [NEWLINE];
              ok ==> files == old(files)[0 := old(files)[0] + [line]] && Written() == old(Written()) + [line]
      ensures !ok ==>
                || (files == old(files) && Written() == old(Written()))
                || exists chunk :: chunk <= rendered + [NEWLINE]
                                   && files == old(files)[0 := old(files)[0] + [chunk]]
                                   && Written() == old(Written()) + [chunk]
    {
      hide LegalJournal, Replayed, FileBytes, Grown;
      var line := rendered + [NEWLINE];
      ghost var file, written := files[0], Written();
      var done := 0;
      while done < |line|
        invariant Valid() && old(journal) <= journal && faults == old(faults)
        invariant 0 <= done <= |line|
        invariant done == 0 ==> files == old(files) && Written() == written
        invariant done > 0 ==> files == old(files)[0 := file + [line[..done]]] && Written() == written + [line[..done]]
      {
        ok := Attempt();
        if !ok {
          return;
        }
        var most := if done < |rendered| then |rendered| - done else 1;
        var count: int := *;
        if !(1 <= count <= most) {
          count := most;
        }
        if done == 0 {
          StartLine(line[..count]);
        } else {
          LineGrows(file, line, done, count);
          LineGrows(written, line, done, count);
          ExtendLine(line[done..done + count]);
        }
        done := done + count;
      }
      assert line[..|line|] == line;
      ok := true;
    }

    lemma LineGrows(before: seq<Chunk>, line: Bytes, done: nat, count: nat)
      requires done + count <= |line|
      ensures var chunks := before + [line[..done]];
              && Grown(chunks, line[done..done + count]) == before + [line[..done + count]]
              && FileBytes(chunks) == FileBytes(before) + done
    {
      FileBytesGrow(before, line[..done]);
      assert line[..done] + line[done..done + count] == line[..done + count];
    }

    /** Moves every file to the next archive, the oldest first. */
    method ShiftArchives() returns (result: AppendResult)
      requires Valid()
      modifies this
      ensures Valid() && old(journal) <= journal && Written() == old(Written())
      ensures result.Done? <==> faults == old(faults)
      ensures result.Done? ==> IsShift(old(files), files, retention.Archives())
    {
      hide LegalJournal, Replayed, Shifting, IsShift, Moved;
      ghost var before := files;
      var maxArchives := retention.Archives();
      SlotsBounded();
      ShiftStarts(files, maxArchives);
      if maxArchives in files {
        var ok := RemoveFile(maxArchives);
        if !ok {
          return Failed(DeleteError);
        }
      } else {
        NothingToRemove(files, maxArchives);
      }

      var index := maxArchives - 1;
      while index >= 1
        invariant Valid() && old(journal) <= journal && Written() == old(Written()) && faults == old(faults)
        invariant 0 <= index < maxArchives
        invariant Shifting(before, files, maxArchives, index)
      {
        ShiftIsFree(before, files, maxArchives, index);
        if index in files {
          ShiftMoves(before, files, maxArchives, index);
          var ok := RenameFile(index);
          if !ok {
            return Failed(RotateError);
          }
        } else {
          ShiftSkips(before, files, maxArchives, index);
        }
        index := index - 1;
      }

      ShiftIsFree(before, files, maxArchives, 0);
      ShiftEnds(before, files, maxArchives);
      if 0 in files {
        var ok := RenameFile(0);
        if !ok {
          return Failed(RotateError);
        }
      }
      result := Done;
    }

    method RotateIfNeeded(line: Bytes) returns (result: AppendResult)
      requires Valid()
      modifies this
      ensures Valid() && old(journal) <= journal && Written() == old(Written())
      ensures result.Done? <==> faults == old(faults)
      ensures result.Done? && Fits(old(files), line, retention) ==> files == old(files)
      ensures result.Done? && !Fits(old(files), line, retention) ==> IsShift(old(files), files, retention.Archives())
    {
      hide LegalJournal, Replayed, FileBytes, IsShift, Fits, Capped, SatSum;
      var readable := Attempt();
      if !readable {
        return Failed(MetadataError);
      }
      var currentSize := if 0 in files then Capped(FileBytes(files[0])) else 0;
      SizeDecides(files, line, retention);
      if SatSum(currentSize, Capped(|line|)) <= retention.maxBytes {
        return Done;
      }
      result := ShiftArchives();
    }

    lemma SizeDecides(files: map<nat, File>, line: Bytes, policy: Retention)
      ensures Fits(files, line, policy) <==>
              SatSum(if 0 in files then Capped(FileBytes(files[0])) else 0, Capped(|line|)) <= policy.maxBytes
    {
      hide FileBytes;
      EmptyFile();
    }

    lemma NothingToRemove(files: map<nat, File>, n: nat)
      requires n !in files
      ensures files - {n} == files
    {
    }

    lemma SlotsBounded()
      requires Valid()
      ensures forall k :: k in files ==> k <= retention.Archives()
    {
      EveryStateKept(journal, retention, |journal|);
      assert journal[..|journal|] == journal;
    }

    /** A line is appended whole, to the current file when it fits and to a new one after a rotation
        when it does not; whatever fails on the way, the history stays legal, and at most a front
        part of the line has been written. */
    method Append(rendered: Bytes) returns (result: AppendResult)
      requires Valid()
      modifies this
      ensures Valid() && old(journal) <= journal
      ensures result.Done? <==> faults == old(faults)
      ensures var line := rendered + [NEWLINE];
              result.Done? ==>
                && Written() == old(Written()) + [line]
                && 0 in files
                && if Fits(old(files), line, retention)
                   then files == old(files)[0 := At(old(files), 0) + [line]]
                   else files[0] == [line] && IsShift(old(files), files - {0}, retention.Archives())
      ensures result.Failed? ==>
                || Written() == old(Written())
                || exists chunk :: chunk <= rendered + [NEWLINE] && Written() == old(Written()) + [chunk]
    {
      hide LegalJournal, Replayed, FileBytes, IsShift, Fits;
      var created := Attempt();
      if !created {
        return Failed(CreateDirError);
      }
      var line := rendered + [NEWLINE];
      result := RotateIfNeeded(line);
      if result.Failed? {
        return;
      }
      ghost var rotated := files;
      if Fits(old(files), line, retention) {
        FitsHasRoom(old(files), line, retention);
      } else {
        ShiftFreesCurrent(old(files), files, retention.Archives());
      }
      EmptyFile();
      var isOpen := OpenFile();
      if !isOpen {
        return Failed(WriteError);
      }
      var ok := WriteLine(rendered);
      if !ok {
        return Failed(WriteError);
      }
      assert files - {0} == rotated - {0};
      assert 0 !in rotated ==> rotated - {0} == rotated;
      result := Done;
    }
  }

  lemma ShiftFreesCurrent(before: map<nat, File>, after: map<nat, File>, n: nat)
    requires IsShift(before, after, n)
    ensures 0 !in after
  {
  }

  lemma FitsHasRoom(files: map<nat, File>, line: Bytes, policy: Retention)
    requires Fits(files, line, policy)
    ensures FileBytes(At(files, 0)) + |line| <= policy.maxBytes || policy.maxBytes == U64_MAX
  {
    hide FileBytes;
  }
}
