/** The profile and bookmark stores: lists kept as the name-sorted enumeration of a finite map. */
module Stores {
  import opened Text
  import opened Ordering

  datatype Entry<+D> = Entry(name: string, data: D)

  /** What a list of entries says about each name; a later entry overrides an earlier one. */
  ghost function AsMap<D>(entries: seq<Entry<D>>): map<string, D> {
    if entries == [] then map[]
    else
      var last := entries[|entries| - 1];
      AsMap(entries[..|entries| - 1])[last.name := last.data]
  }

  predicate Listed<D>(entries: seq<Entry<D>>) {
    forall i, j :: 0 <= i < j < |entries| ==> Less(entries[i].name, entries[j].name)
  }

  predicate DistinctNames<D>(entries: seq<Entry<D>>) {
    forall i, j :: 0 <= i < j < |entries| ==> entries[i].name != entries[j].name
  }

  lemma {:induction false} NamesAreKeys<D>(entries: seq<Entry<D>>, name: string)
    ensures name in AsMap(entries) <==> exists i :: 0 <= i < |entries| && entries[i].name == name
  {
    if entries != [] {
      var front := entries[..|entries| - 1];
      NamesAreKeys(front, name);
      if i :| 0 <= i < |front| && front[i].name == name {
        assert entries[i].name == name;
      }
    }
  }

  lemma {:induction false} EntryOfMap<D>(entries: seq<Entry<D>>, i: nat)
    requires DistinctNames(entries) && i < |entries|
    ensures entries[i].name in AsMap(entries) && AsMap(entries)[entries[i].name] == entries[i].data
  {
    if i < |entries| - 1 {
      EntryOfMap(entries[..|entries| - 1], i);
    }
  }

  /** A map is known by which entries it holds. */
  lemma HoldsSame<D>(s: seq<Entry<D>>, m: map<string, D>)
    requires DistinctNames(s)
    requires forall i :: 0 <= i < |s| ==> s[i].name in m && m[s[i].name] == s[i].data
    requires forall k :: k in m ==> exists i :: 0 <= i < |s| && s[i].name == k
    ensures AsMap(s) == m
  {
    forall k
      ensures k in AsMap(s) <==> k in m
      ensures k in m ==> AsMap(s)[k] == m[k]
    {
      NamesAreKeys(s, k);
      if k in m {
        var i :| 0 <= i < |s| && s[i].name == k;
        EntryOfMap(s, i);
      }
    }
  }

  lemma ListedIsDistinct<D>(entries: seq<Entry<D>>)
    requires Listed(entries)
    ensures DistinctNames(entries)
  {
    hide Leq;
  }

  /** Only one name-sorted list enumerates a map. */
  lemma {:induction false} ListedOnce<D>(s: seq<Entry<D>>, t: seq<Entry<D>>)
    requires Listed(s) && Listed(t) && AsMap(s) == AsMap(t)
    ensures s == t
  {
    hide Leq;
    ListedIsDistinct(s);
    ListedIsDistinct(t);
    if s == [] {
      NothingMapped(t);
    } else if t == [] {
      NothingMapped(s);
    } else {
      var m, n := |s| - 1, |t| - 1;
      EntryOfMap(s, m);
      EntryOfMap(t, n);
      NamesAreKeys(t, s[m].name);
      NamesAreKeys(s, t[n].name);
      var j :| 0 <= j <= n && t[j].name == s[m].name;
      var i :| 0 <= i <= m && s[i].name == t[n].name;
      if i < m && j < n {
        LeqAntisymmetric(s[i].name, s[m].name);
      }
      assert s[m].name == t[n].name;
      WithoutLast(s);
      WithoutLast(t);
      ListedOnce(s[..m], t[..n]);
      assert s == s[..m] + [s[m]] && t == t[..n] + [t[n]];
    }
  }

  lemma NothingMapped<D>(s: seq<Entry<D>>)
    requires AsMap(s) == map[]
    ensures s == []
  {
    if s != [] {
      NamesAreKeys(s, s[0].name);
    }
  }

  lemma WithoutLast<D>(s: seq<Entry<D>>)
    requires s != [] && DistinctNames(s)
    ensures AsMap(s[..|s| - 1]) == AsMap(s) - {s[|s| - 1].name}
  {
    NamesAreKeys(s[..|s| - 1], s[|s| - 1].name);
  }

  // ---------------------------------------------------------------- the operations on lists

  predicate NameLeq<D>(l: Entry<D>, r: Entry<D>) {
    Leq(l.name, r.name)
  }

  lemma NameOrderIsTotal<D(!new)>()
    ensures IsTotalOrder<Entry<D>>(NameLeq)
  {
    hide Leq;
    forall x: Entry<D>, y: Entry<D>
      ensures NameLeq(x, y) || NameLeq(y, x)
    {
      LeqTotal(x.name, y.name);
    }
    forall x: Entry<D>, y: Entry<D>, z: Entry<D> | NameLeq(x, y) && NameLeq(y, z)
      ensures NameLeq(x, z)
    {
      LeqTransitive(x.name, y.name, z.name);
    }
  }

  lemma ReplacedIsUpsert<D>(s: seq<Entry<D>>, i: nat, e: Entry<D>)
    requires Listed(s) && i < |s| && s[i].name == e.name
    ensures Listed(s[i := e]) && AsMap(s[i := e]) == AsMap(s)[e.name := e.data]
  {
    hide Leq;
    ListedIsDistinct(s);
    var t, m := s[i := e], AsMap(s)[e.name := e.data];
    forall k | 0 <= k < |t|
      ensures t[k].name in m && m[t[k].name] == t[k].data
    {
      EntryOfMap(s, k);
    }
    forall k | k in m
      ensures exists j :: 0 <= j < |t| && t[j].name == k
    {
      NamesAreKeys(s, k);
      if k == e.name {
        assert t[i].name == k;
      } else {
        var j :| 0 <= j < |s| && s[j].name == k;
        assert t[j].name == k;
      }
    }
    HoldsSame(t, m);
  }

  lemma AppendedMap<D>(s: seq<Entry<D>>, e: Entry<D>)
    ensures AsMap(s + [e]) == AsMap(s)[e.name := e.data]
  {
    assert (s + [e])[..|s|] == s;
  }

  /** A sorted permutation of entries with distinct names enumerates the same map. */
  lemma SortedEnumerates<D>(s: seq<Entry<D>>, t: seq<Entry<D>>)
    requires DistinctNames(s) && multiset(t) == multiset(s) && SortedBy(t, NameLeq)
    ensures Listed(t) && AsMap(t) == AsMap(s)
  {
    hide Leq;
    PermutedDistinct(s, t);
    var m := AsMap(s);
    forall k | 0 <= k < |t|
      ensures t[k].name in m && m[t[k].name] == t[k].data
    {
      assert t[k] in multiset(s);
      var i :| 0 <= i < |s| && s[i] == t[k];
      EntryOfMap(s, i);
    }
    forall k | k in m
      ensures exists j :: 0 <= j < |t| && t[j].name == k
    {
      NamesAreKeys(s, k);
      var i :| 0 <= i < |s| && s[i].name == k;
      assert s[i] in multiset(t);
      var j :| 0 <= j < |t| && t[j] == s[i];
    }
    HoldsSame(t, m);
    forall i, j | 0 <= i < j < |t|
      ensures Less(t[i].name, t[j].name)
    {
      assert NameLeq(t[i], t[j]);
    }
  }

  lemma {:induction false} PermutedDistinct<D>(s: seq<Entry<D>>, t: seq<Entry<D>>)
    requires DistinctNames(s) && multiset(t) == multiset(s)
    ensures DistinctNames(t)
  {
    forall i, j | 0 <= i < j < |t|
      ensures t[i].name != t[j].name
    {
      if t[i].name == t[j].name {
        assert t[i] in multiset(s) && t[j] in multiset(s);
        var p :| 0 <= p < |s| && s[p] == t[i];
        var q :| 0 <= q < |s| && s[q] == t[j];
        assert p == q;
        TwiceIn(t, i, j);
        OnceIn(s, p);
      }
    }
  }

  lemma TwiceIn<D>(t: seq<Entry<D>>, i: nat, j: nat)
    requires i < j < |t| && t[i] == t[j]
    ensures multiset(t)[t[i]] >= 2
  {
    assert t == t[..i] + [t[i]] + t[i + 1..];
    assert t[i + 1..] == t[i + 1..j] + [t[j]] + t[j + 1..];
  }

  lemma OnceIn<D>(s: seq<Entry<D>>, p: nat)
    requires p < |s| && DistinctNames(s)
    ensures multiset(s)[s[p]] <= 1
  {
    assert s == s[..p] + [s[p]] + s[p + 1..];
    assert s[p] !in s[..p] && s[p] !in s[p + 1..];
  }

  function Retained<D>(s: seq<Entry<D>>, name: string): (r: seq<Entry<D>>)
    ensures forall i :: 0 <= i < |r| ==> r[i] in s && r[i].name != name
  {
    if s == [] then []
    else
      var front, last := Retained(s[..|s| - 1], name), s[|s| - 1];
      assert s == s[..|s| - 1] + [last];
      if last.name != name then front + [last] else front
  }

  lemma {:induction false} RetainedInOrder<D>(s: seq<Entry<D>>, name: string)
    requires Listed(s)
    ensures Listed(Retained(s, name))
  {
    hide Less;
    if s != [] {
      var front, last := s[..|s| - 1], s[|s| - 1];
      RetainedInOrder(front, name);
      forall k | 0 <= k < |Retained(front, name)|
        ensures Less(Retained(front, name)[k].name, last.name)
      {
        var i :| 0 <= i < |front| && front[i] == Retained(front, name)[k];
        assert s[i] == front[i];
      }
    }
  }

  lemma MapWithout<K, D>(m: map<K, D>, k: K, d: D, name: K)
    ensures m[k := d] - {name} == if k == name then m - {name} else (m - {name})[k := d]
  {
  }

  lemma {:induction false} RetainedMap<D>(s: seq<Entry<D>>, name: string)
    ensures AsMap(Retained(s, name)) == AsMap(s) - {name}
  {
    if s != [] {
      var front, last := s[..|s| - 1], s[|s| - 1];
      RetainedMap(front, name);
      MapWithout(AsMap(front), last.name, last.data, name);
      hide AsMap;
      AppendedMap(front, last);
      assert s == front + [last];
      if last.name != name {
        AppendedMap(Retained(front, name), last);
      }
    }
  }

  lemma {:induction false} RetainedLength<D>(s: seq<Entry<D>>, name: string)
    ensures |Retained(s, name)| <= |s|
    ensures |Retained(s, name)| == |s| <==> name !in AsMap(s)
  {
    if s != [] {
      RetainedLength(s[..|s| - 1], name);
    }
  }

  // ---------------------------------------------------------------- the store

  class NamedStore<D(==, !new)> {
    var entries: seq<Entry<D>>

    ghost predicate Valid()
      reads this
    {
      Listed(entries)
    }

    ghost function Contents(): map<string, D>
      reads this
    {
      AsMap(entries)
    }

    /** A document may list a name twice and in any order: the last entry counts. */
    constructor Load(document: seq<Entry<D>>)
      ensures Valid() && Contents() == AsMap(document)
      ensures Listed(document) ==> entries == document
    {
      entries := [];
      new;
      for i := 0 to |document|
        invariant Valid() && Contents() == AsMap(document[..i])
      {
        assert document[..i + 1][..i] == document[..i];
        Upsert(document[i]);
      }
      assert document[..|document|] == document;
      if Listed(document) {
        ListedOnce(entries, document);
      }
    }

    method Find(name: string) returns (index: Option<nat>)
      requires Valid()
      ensures index.Some? ==> index.value < |entries| && entries[index.value].name == name
      ensures index.Some? <==> name in Contents()
    {
      hide Listed;
      NamesAreKeys(entries, name);
      for i := 0 to |entries|
        invariant forall k :: 0 <= k < i ==> entries[k].name != name
      {
        if entries[i].name == name {
          return Some(i);
        }
      }
      index := None;
    }

    method Upsert(entry: Entry<D>)
      requires Valid()
      modifies this
      ensures Valid() && Contents() == old(Contents())[entry.name := entry.data]
    {
      hide Listed, AsMap, IsTotalOrder, NameLeq;
      var existing := Find(entry.name);
      if existing.Some? {
        ReplacedIsUpsert(entries, existing.value, entry);
        entries := entries[existing.value := entry];
      } else {
        NameOrderIsTotal<D>();
        AppendedMap(entries, entry);
        AppendedDistinct(entries, entry);
        SortedEnumerates(entries + [entry], SortBy(entries + [entry], NameLeq));
        entries := SortBy(entries + [entry], NameLeq);
      }
    }

    method Delete(name: string) returns (deleted: bool)
      requires Valid()
      modifies this
      ensures Valid() && Contents() == old(Contents()) - {name}
      ensures deleted <==> name in old(Contents())
    {
      hide Listed, AsMap;
      var originalLength := |entries|;
      RetainedInOrder(entries, name);
      RetainedMap(entries, name);
      RetainedLength(entries, name);
      entries := Retained(entries, name);
      deleted := |entries| != originalLength;
    }
  }

  lemma AppendedDistinct<D>(s: seq<Entry<D>>, e: Entry<D>)
    requires Listed(s) && e.name !in AsMap(s)
    ensures DistinctNames(s + [e])
  {
    ListedIsDistinct(s);
    NamesAreKeys(s, e.name);
  }

  // ---------------------------------------------------------------- the manager

  datatype Renaming = Renamed | Unchanged | NameTaken | NothingThere | NotPersisted

  /** Renames the selected entry. One map entry moves, all others stay, and the cursor follows; a name
      in use is refused. When the file cannot be written the list is renamed but the cursor stays. */
  method RenameSelected<D(==, !new)>(store: NamedStore<D>, cursor: nat, newName: string, persisted: bool)
    returns (outcome: Renaming, newCursor: nat)
    requires store.Valid()
    modifies store
    ensures store.Valid()
    ensures outcome.NothingThere? <==> old(store.entries) == []
    ensures !outcome.NothingThere? ==>
              var was := old(store.entries);
              var selected := was[if cursor < |was| then cursor else |was| - 1];
              && (outcome.Unchanged? <==> newName == selected.name)
              && (outcome.NameTaken? <==> newName != selected.name && newName in old(store.Contents()))
    ensures outcome.Unchanged? || outcome.NameTaken? || outcome.NothingThere? ==>
              store.entries == old(store.entries) && newCursor == cursor
    ensures outcome.Renamed? || outcome.NotPersisted? ==>
              var was := old(store.entries);
              var selected := was[if cursor < |was| then cursor else |was| - 1];
              && newName !in old(store.Contents())
              && store.Contents() == (old(store.Contents()) - {selected.name})[newName := selected.data]
              && (outcome.Renamed? <==> persisted)
              && (persisted ==>
                    newCursor < |store.entries| && store.entries[newCursor] == Entry(newName, selected.data))
              && (!persisted ==> newCursor == cursor)
  {
    hide Listed, AsMap;
    newCursor := cursor;
    if store.entries == [] {
      return NothingThere, cursor;
    }
    var index := if cursor < |store.entries| then cursor else |store.entries| - 1;
    var selected := store.entries[index];
    if selected.name == newName {
      return Unchanged, cursor;
    }
    var taken := store.Find(newName);
    if taken.Some? {
      return NameTaken, cursor;
    }

    var updated := Entry(newName, selected.data);
    store.Upsert(updated);
    var _ := store.Delete(selected.name);
    if !persisted {
      return NotPersisted, cursor;
    }
    var position := store.Find(newName);
    ListedIsDistinct(store.entries);
    EntryOfMap(store.entries, position.value);
    outcome, newCursor := Renamed, position.value;
  }

  datatype Profile = Profile(settings: string, isDefault: bool, quickReconnect: bool)

  /** Marks one profile as the default: afterwards it is the only one marked, and nothing else of any
      profile has changed. */
  method SetDefaultProfile(store: NamedStore<Profile>, name: string) returns (found: bool)
    requires store.Valid()
    modifies store
    ensures store.Valid()
    ensures found <==> name in old(store.Contents())
    ensures !found ==> store.entries == old(store.entries)
    ensures found ==>
              && |store.entries| == |old(store.entries)|
              && (forall i :: 0 <= i < |store.entries| ==>
                    store.entries[i] == var was := old(store.entries)[i];
                                        was.(data := was.data.(isDefault := was.name == name)))
              && exists i :: 0 <= i < |store.entries|
                             && store.entries[i].name == name && store.entries[i].data.isDefault
                             && forall j :: 0 <= j < |store.entries| && store.entries[j].data.isDefault ==> j == i
  {
    hide Leq, AsMap;
    var index := store.Find(name);
    if index.None? {
      return false;
    }
    ghost var was := store.entries;
    ListedIsDistinct(was);
    for i := 0 to |store.entries|
      invariant |store.entries| == |was|
      invariant forall k :: i <= k < |was| ==> store.entries[k] == was[k]
      invariant forall k :: 0 <= k < i ==>
                  store.entries[k] == was[k].(data := was[k].data.(isDefault := was[k].name == name))
    {
      var entry := store.entries[i];
      store.entries := store.entries[i := entry.(data := entry.data.(isDefault := entry.name == name))];
    }
    assert store.entries[index.value].name == name;
    found := true;
  }
}
