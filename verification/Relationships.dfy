/** Foreign-key relationships of a table, and the schema cache they are read through. */
module Relationships {
  import opened Text
  import opened Ordering

  datatype ForeignKey = ForeignKey(
    constraintName: string,
    columnName: string,
    referencedDatabase: string,
    referencedTable: string,
    referencedColumn: string)

  datatype Table = Table(name: string, columns: seq<string>, foreignKeys: seq<ForeignKey>)

  datatype Database = Database(name: string, tables: seq<Table>)

  datatype Catalog = Catalog(databases: seq<Database>)

  datatype Direction = Outbound | Inbound

  datatype Relationship = Relationship(
    direction: Direction,
    constraintName: string,
    sourceColumn: string,
    relatedDatabase: string,
    relatedTable: string,
    relatedColumn: string)

  /** The first database of that name. */
  function FindDatabase(databases: seq<Database>, name: string): Option<Database> {
    if databases == [] then None
    else if databases[0].name == name then Some(databases[0])
    else FindDatabase(databases[1..], name)
  }

  function FindTable(tables: seq<Table>, name: string): Option<Table> {
    if tables == [] then None
    else if tables[0].name == name then Some(tables[0])
    else FindTable(tables[1..], name)
  }

  function OutboundOf(key: ForeignKey): Relationship {
    Relationship(Outbound, key.constraintName, key.columnName, key.referencedDatabase, key.referencedTable,
                 key.referencedColumn)
  }

  function InboundOf(key: ForeignKey, database: string, from: string): Relationship {
    Relationship(Inbound, key.constraintName, key.referencedColumn, database, from, key.columnName)
  }

  predicate Refers(key: ForeignKey, database: string, table: string) {
    key.referencedTable == table && key.referencedDatabase == database
  }

  function OutboundFrom(keys: seq<ForeignKey>): seq<Relationship> {
    if keys == [] then [] else OutboundFrom(keys[..|keys| - 1]) + [OutboundOf(keys[|keys| - 1])]
  }

  function InboundFrom(keys: seq<ForeignKey>, database: string, from: string, table: string): seq<Relationship> {
    if keys == [] then []
    else
      var front, key := InboundFrom(keys[..|keys| - 1], database, from, table), keys[|keys| - 1];
      if Refers(key, database, table) then front + [InboundOf(key, database, from)] else front
  }

  function InboundTo(tables: seq<Table>, database: string, table: string): seq<Relationship> {
    if tables == [] then []
    else
      var last := tables[|tables| - 1];
      InboundTo(tables[..|tables| - 1], database, table) + InboundFrom(last.foreignKeys, database, last.name, table)
  }

  function KeysOf(database: Database, table: string): seq<ForeignKey> {
    match FindTable(database.tables, table)
    case Some(t) => t.foreignKeys
    case None => []
  }

  /** The relationships before they are sorted. */
  function Collected(database: Database, table: string): seq<Relationship> {
    OutboundFrom(KeysOf(database, table)) + InboundTo(database.tables, database.name, table)
  }

  /** The database looked up is the first of its name, and there is none exactly when no database has it. */
  lemma {:induction false} DatabaseIsFirst(databases: seq<Database>, name: string) returns (i: nat)
    ensures i <= |databases| && forall j :: 0 <= j < i ==> databases[j].name != name
    ensures if i < |databases| then databases[i].name == name && FindDatabase(databases, name) == Some(databases[i])
            else FindDatabase(databases, name) == None
  {
    if databases == [] || databases[0].name == name {
      i := 0;
    } else {
      i := DatabaseIsFirst(databases[1..], name);
      i := i + 1;
    }
  }

  lemma {:induction false} TableIsFirst(tables: seq<Table>, name: string) returns (i: nat)
    ensures i <= |tables| && forall j :: 0 <= j < i ==> tables[j].name != name
    ensures if i < |tables| then tables[i].name == name && FindTable(tables, name) == Some(tables[i])
            else FindTable(tables, name) == None
  {
    if tables == [] || tables[0].name == name {
      i := 0;
    } else {
      i := TableIsFirst(tables[1..], name);
      i := i + 1;
    }
  }

  // ---------------------------------------------------------------- the order

  predicate KeyLeq(l: Relationship, r: Relationship) {
    if l.relatedDatabase != r.relatedDatabase then Leq(l.relatedDatabase, r.relatedDatabase)
    else if l.relatedTable != r.relatedTable then Leq(l.relatedTable, r.relatedTable)
    else if l.relatedColumn != r.relatedColumn then Leq(l.relatedColumn, r.relatedColumn)
    else if l.constraintName != r.constraintName then Leq(l.constraintName, r.constraintName)
    else l.direction == Outbound || r.direction == Inbound
  }

  lemma LeqFacts(a: string, b: string, c: string)
    ensures Leq(a, b) || Leq(b, a)
    ensures Leq(a, b) && Leq(b, a) ==> a == b
    ensures Leq(a, b) && Leq(b, c) ==> Leq(a, c)
  {
    hide Leq;
    LeqTotal(a, b);
    if Leq(a, b) && Leq(b, a) {
      LeqAntisymmetric(a, b);
    }
    if Leq(a, b) && Leq(b, c) {
      LeqTransitive(a, b, c);
    }
  }

  lemma KeyLeqFacts(l: Relationship, m: Relationship, r: Relationship)
    ensures KeyLeq(l, m) || KeyLeq(m, l)
    ensures KeyLeq(l, m) && KeyLeq(m, r) ==> KeyLeq(l, r)
  {
    hide Leq;
    LeqFacts(l.relatedDatabase, m.relatedDatabase, r.relatedDatabase);
    LeqFacts(m.relatedDatabase, r.relatedDatabase, l.relatedDatabase);
    LeqFacts(l.relatedTable, m.relatedTable, r.relatedTable);
    LeqFacts(m.relatedTable, r.relatedTable, l.relatedTable);
    LeqFacts(l.relatedColumn, m.relatedColumn, r.relatedColumn);
    LeqFacts(m.relatedColumn, r.relatedColumn, l.relatedColumn);
    LeqFacts(l.constraintName, m.constraintName, r.constraintName);
    LeqFacts(m.constraintName, r.constraintName, l.constraintName);
  }

  lemma KeyOrderIsTotal()
    ensures IsTotalOrder(KeyLeq)
  {
    hide KeyLeq;
    forall x, y
      ensures KeyLeq(x, y) || KeyLeq(y, x)
    {
      KeyLeqFacts(x, y, y);
    }
    forall x, y, z | KeyLeq(x, y) && KeyLeq(y, z)
      ensures KeyLeq(x, z)
    {
      KeyLeqFacts(x, y, z);
    }
  }

  function SortKey(r: Relationship): seq<string> {
    [r.relatedDatabase, r.relatedTable, r.relatedColumn, r.constraintName, if r.direction == Outbound then "0" else "1"]
  }

  /** The order is decided by the first of the five parts in which two relationships differ. */
  lemma FirstDifferenceDecides(l: Relationship, r: Relationship, k: nat)
    requires k < 5 && SortKey(l)[..k] == SortKey(r)[..k] && SortKey(l)[k] != SortKey(r)[k]
    ensures KeyLeq(l, r) <==> Less(SortKey(l)[k], SortKey(r)[k])
  {
    hide Leq;
    forall i | 0 <= i < k
      ensures SortKey(l)[i] == SortKey(r)[i]
    {
      assert SortKey(l)[i] == SortKey(l)[..k][i] == SortKey(r)[..k][i];
    }
    assert k > 0 ==> SortKey(l)[0] == l.relatedDatabase == r.relatedDatabase == SortKey(r)[0];
    assert k > 1 ==> SortKey(l)[1] == l.relatedTable == r.relatedTable == SortKey(r)[1];
    assert k > 2 ==> SortKey(l)[2] == l.relatedColumn == r.relatedColumn == SortKey(r)[2];
    assert k > 3 ==> SortKey(l)[3] == l.constraintName == r.constraintName == SortKey(r)[3];
    FirstCharacterDecides("0", "1", 0);
    FirstCharacterDecides("1", "0", 0);
  }

  // ---------------------------------------------------------------- the index

  method CollectInbound(tables: seq<Table>, databaseName: string, tableName: string)
    returns (relationships: seq<Relationship>)
    ensures relationships == InboundTo(tables, databaseName, tableName)
  {
    relationships := [];
    for t := 0 to |tables|
      invariant relationships == InboundTo(tables[..t], databaseName, tableName)
    {
      assert tables[..t + 1][..t] == tables[..t];
      var candidate := tables[t];
      ghost var before := relationships;
      for k := 0 to |candidate.foreignKeys|
        invariant relationships ==
                  before + InboundFrom(candidate.foreignKeys[..k], databaseName, candidate.name, tableName)
      {
        assert candidate.foreignKeys[..k + 1][..k] == candidate.foreignKeys[..k];
        var key := candidate.foreignKeys[k];
        if key.referencedTable == tableName && key.referencedDatabase == databaseName {
          relationships := relationships + [InboundOf(key, databaseName, candidate.name)];
        }
      }
      assert candidate.foreignKeys[..|candidate.foreignKeys|] == candidate.foreignKeys;
    }
    assert tables[..|tables|] == tables;
  }

  method CollectTableRelationships(catalog: Catalog, databaseName: string, tableName: string)
    returns (relationships: seq<Relationship>)
    ensures match FindDatabase(catalog.databases, databaseName)
            case None => relationships == []
            case Some(database) =>
              && multiset(relationships) == multiset(Collected(database, tableName))
              && SortedBy(relationships, KeyLeq)
  {
    hide KeyLeq, IsTotalOrder;
    relationships := [];
    ghost var _ := DatabaseIsFirst(catalog.databases, databaseName);
    var found := FindDatabase(catalog.databases, databaseName);
    if found.None? {
      return;
    }
    var database := found.value;

    var table := FindTable(database.tables, tableName);
    if table.Some? {
      var keys := table.value.foreignKeys;
      for i := 0 to |keys|
        invariant relationships == OutboundFrom(keys[..i])
      {
        assert keys[..i + 1][..i] == keys[..i];
        relationships := relationships + [OutboundOf(keys[i])];
      }
      assert keys[..|keys|] == keys;
    }

    var inbound := CollectInbound(database.tables, databaseName, tableName);
    relationships := relationships + inbound;
    KeyOrderIsTotal();
    relationships := SortBy(relationships, KeyLeq);
  }

  // ---------------------------------------------------------------- both directions agree

  predicate DistinctTables(tables: seq<Table>) {
    forall i, j :: 0 <= i < j < |tables| ==> tables[i].name != tables[j].name
  }

  lemma {:induction false} OutboundCount(keys: seq<ForeignKey>, key: ForeignKey)
    ensures multiset(OutboundFrom(keys))[OutboundOf(key)] == multiset(keys)[key]
    ensures forall r :: r in OutboundFrom(keys) ==> r.direction == Outbound
  {
    if keys != [] {
      OutboundCount(keys[..|keys| - 1], key);
      assert keys == keys[..|keys| - 1] + [keys[|keys| - 1]];
    }
  }

  lemma {:induction false} InboundCount(keys: seq<ForeignKey>, database: string, from: string, table: string,
                                        key: ForeignKey, name: string)
    requires Refers(key, database, table)
    ensures multiset(InboundFrom(keys, database, from, table))[InboundOf(key, database, name)] ==
            if from == name then multiset(keys)[key] else 0
    ensures forall r :: r in InboundFrom(keys, database, from, table) ==> r.direction == Inbound
  {
    if keys != [] {
      var front, last := keys[..|keys| - 1], keys[|keys| - 1];
      InboundCount(front, database, from, table, key, name);
      assert keys == front + [last];
      assert Refers(last, database, table) && InboundOf(last, database, from) == InboundOf(key, database, name) ==>
        last == key && from == name;
    }
  }

  /** Where names are distinct, the only table of a name is found. */
  lemma FindTableIsOnly(tables: seq<Table>, name: string, i: nat)
    requires DistinctTables(tables) && i < |tables| && tables[i].name == name
    ensures FindTable(tables, name) == Some(tables[i])
  {
    var first := TableIsFirst(tables, name);
    assert first == i;
  }

  lemma FindTableNone(tables: seq<Table>, name: string)
    requires forall i :: 0 <= i < |tables| ==> tables[i].name != name
    ensures FindTable(tables, name) == None
  {
    var first := TableIsFirst(tables, name);
  }

  lemma {:induction false} InboundToCount(tables: seq<Table>, database: string, table: string, key: ForeignKey,
      name: string)
    requires Refers(key, database, table) && DistinctTables(tables)
    ensures multiset(InboundTo(tables, database, table))[InboundOf(key, database, name)] ==
            multiset(KeysOf(Database(database, tables), name))[key]
    ensures forall r :: r in InboundTo(tables, database, table) ==> r.direction == Inbound
  {
    if tables == [] {
    } else {
      var front, last := tables[..|tables| - 1], tables[|tables| - 1];
      InboundToCount(front, database, table, key, name);
      InboundCount(last.foreignKeys, database, last.name, table, key, name);
      if last.name == name {
        FindTableIsOnly(tables, name, |tables| - 1);
        FindTableNone(front, name);
      } else if i :| 0 <= i < |front| && front[i].name == name {
        FindTableIsOnly(tables, name, i);
        FindTableIsOnly(front, name, i);
      } else {
        FindTableNone(tables, name);
        FindTableNone(front, name);
      }
    }
  }

  /** Within a database of distinct table names, a relationship of A to B by one column pair is listed
      for A as often as its mirror image is listed for B. */
  lemma DirectionsAgree(database: Database, a: string, b: string, constraint: string, columnA: string, columnB: string)
    requires DistinctTables(database.tables)
    ensures multiset(Collected(database, a))[Relationship(Outbound, constraint, columnA, database.name, b, columnB)] ==
            multiset(Collected(database, b))[Relationship(Inbound, constraint, columnB, database.name, a, columnA)]
  {
    hide InboundTo, OutboundFrom, KeysOf;
    var key := ForeignKey(constraint, columnA, database.name, b, columnB);
    var keysA, keysB := KeysOf(database, a), KeysOf(database, b);
    OutboundCount(keysA, key);
    OutboundCount(keysB, key);
    InboundToCount(database.tables, database.name, b, key, a);
    InboundToCount(database.tables, database.name, a, key.(referencedTable := a), a);
    assert Database(database.name, database.tables) == database;
  }

  // ---------------------------------------------------------------- what is listed

  predicate IsFirstNamed(tables: seq<Table>, name: string, i: nat)
    requires i < |tables|
  {
    tables[i].name == name && forall j :: 0 <= j < i ==> tables[j].name != name
  }

  /** A relationship that leaves the table is listed as often as the first table of that name holds its key. */
  lemma OutboundListed(database: Database, table: string, key: ForeignKey)
    ensures var listed := multiset(Collected(database, table))[
              Relationship(Outbound, key.constraintName, key.columnName,
                           key.referencedDatabase, key.referencedTable, key.referencedColumn)];
            var tables := database.tables;
            && (forall i :: 0 <= i < |tables| && IsFirstNamed(tables, table, i) ==>
                  listed == multiset(tables[i].foreignKeys)[key])
            && ((forall i :: 0 <= i < |tables| ==> tables[i].name != table) ==> listed == 0)
  {
    hide InboundTo, OutboundFrom, FindTable;
    var first := TableIsFirst(database.tables, table);
    OutboundCount(KeysOf(database, table), key);
    InboundIsInbound(database.tables, database.name, table);
  }

  /** A relationship that refers to the table is listed as often as the table it comes from holds its key. */
  lemma InboundListed(database: Database, table: string, key: ForeignKey, from: string)
    requires DistinctTables(database.tables)
    requires key.referencedTable == table && key.referencedDatabase == database.name
    ensures var listed := multiset(Collected(database, table))[
              Relationship(Inbound, key.constraintName, key.referencedColumn,
                           database.name, from, key.columnName)];
            var tables := database.tables;
            && (forall i :: 0 <= i < |tables| && tables[i].name == from ==>
                  listed == multiset(tables[i].foreignKeys)[key])
            && ((forall i :: 0 <= i < |tables| ==> tables[i].name != from) ==> listed == 0)
  {
    hide InboundTo, OutboundFrom, FindTable, DistinctTables;
    var tables := database.tables;
    OutboundCount(KeysOf(database, table), key);
    InboundToCount(tables, database.name, table, key, from);
    assert Database(database.name, tables) == database;
    forall i | 0 <= i < |tables| && tables[i].name == from
      ensures FindTable(tables, from) == Some(tables[i])
    {
      FindTableIsOnly(tables, from, i);
    }
    if forall i :: 0 <= i < |tables| ==> tables[i].name != from {
      FindTableNone(tables, from);
    }
  }

  lemma {:induction false} OutboundIsOutbound(keys: seq<ForeignKey>)
    ensures forall r :: r in OutboundFrom(keys) ==> r.direction == Outbound
  {
    if keys != [] {
      OutboundIsOutbound(keys[..|keys| - 1]);
    }
  }

  lemma {:induction false} InboundKeysAreInbound(keys: seq<ForeignKey>, database: string, from: string, table: string)
    ensures forall r :: r in InboundFrom(keys, database, from, table) ==>
              r.direction == Inbound && r.relatedDatabase == database
  {
    if keys != [] {
      InboundKeysAreInbound(keys[..|keys| - 1], database, from, table);
    }
  }

  lemma {:induction false} InboundIsInbound(tables: seq<Table>, database: string, table: string)
    ensures forall r :: r in InboundTo(tables, database, table) ==>
              r.direction == Inbound && r.relatedDatabase == database
  {
    if tables != [] {
      var last := tables[|tables| - 1];
      InboundIsInbound(tables[..|tables| - 1], database, table);
      InboundKeysAreInbound(last.foreignKeys, database, last.name, table);
    }
  }

  /** Every relationship listed is of one of these two kinds, and comes from a key that some table holds. */
  lemma NothingElseListed(database: Database, table: string, r: Relationship) returns (key: ForeignKey)
    requires DistinctTables(database.tables)
    requires r in Collected(database, table)
    ensures match r.direction
            case Outbound =>
              && r == Relationship(Outbound, key.constraintName, key.columnName,
                                   key.referencedDatabase, key.referencedTable, key.referencedColumn)
              && exists t :: t in database.tables && t.name == table && key in t.foreignKeys
            case Inbound =>
              && r == Relationship(Inbound, key.constraintName, key.referencedColumn,
                                   database.name, r.relatedTable, key.columnName)
              && key.referencedTable == table && key.referencedDatabase == database.name
              && exists t :: t in database.tables && t.name == r.relatedTable && key in t.foreignKeys
  {
    hide InboundTo, OutboundFrom, FindTable, DistinctTables;
    var tables := database.tables;
    OutboundIsOutbound(KeysOf(database, table));
    InboundIsInbound(tables, database.name, table);
    var count := multiset(Collected(database, table))[r];
    assert r in multiset(Collected(database, table));
    assert count > 0;
    var name;
    match r.direction {
      case Outbound =>
        name := table;
        key := ForeignKey(r.constraintName, r.sourceColumn, r.relatedDatabase, r.relatedTable, r.relatedColumn);
        OutboundListed(database, table, key);
      case Inbound =>
        name := r.relatedTable;
        key := ForeignKey(r.constraintName, r.relatedColumn, database.name, table, r.sourceColumn);
        InboundListed(database, table, key, name);
    }
    var first := TableIsFirst(tables, name);
    assert first < |tables|;
    assert tables[first] in tables && count == multiset(tables[first].foreignKeys)[key];
    assert key in multiset(tables[first].foreignKeys);
  }

  // ---------------------------------------------------------------- the cache

  datatype Fetch = Fetch(at: nat, catalog: Catalog)

  datatype Result<+T> = Ok(value: T) | BackendError

  /** Time that has passed, nothing when the clock went back. */
  function DurationSince(now: nat, earlier: nat): nat {
    if now >= earlier then now - earlier else 0
  }

  class SchemaCacheService {
    const ttl: nat
    var cache: Option<Fetch>
    /** Every catalog that the backend delivered, with the time it was asked. */
    ghost var fetches: seq<Fetch>

    ghost predicate Valid()
      reads this
    {
      cache.Some? ==> cache.value in fetches
    }

    /** A catalog that the backend delivered not longer ago than the time to live. */
    ghost predicate Recent(catalog: Catalog, now: nat)
      reads this
    {
      exists fetch :: fetch in fetches && fetch.catalog == catalog && now <= fetch.at + ttl
    }

    /** The cached catalog as long as it is not older than the time to live, else what the backend answers. */
    ghost function Served(now: nat, answer: Result<Catalog>): Result<Catalog>
      reads this
    {
      if cache.Some? && now <= cache.value.at + ttl then Ok(cache.value.catalog) else answer
    }

    constructor (ttl: nat)
      ensures Valid() && this.ttl == ttl && cache == None && fetches == []
    {
      this.ttl, cache, fetches := ttl, None, [];
    }

    /** The answer is what the backend delivers when it is asked; a failure keeps the old catalog. */
    method RefreshAt(now: nat, answer: Result<Catalog>) returns (result: Result<Catalog>)
      requires Valid()
      modifies this
      ensures Valid() && result == answer
      ensures answer.Ok? ==> cache == Some(Fetch(now, answer.value))
                              && fetches == old(fetches) + [Fetch(now, answer.value)]
      ensures answer.BackendError? ==> cache == old(cache) && fetches == old(fetches)
    {
      if answer.BackendError? {
        return BackendError;
      }
      cache := Some(Fetch(now, answer.value));
      fetches := fetches + [Fetch(now, answer.value)];
      result := answer;
    }

    /** A hit asks nothing of the backend; whatever is returned was delivered within the time to live. */
    method SchemaAt(now: nat, answer: Result<Catalog>) returns (result: Result<Catalog>)
      requires Valid()
      modifies this
      ensures Valid() && old(fetches) <= fetches
      ensures result == old(Served(now, answer))
      ensures result.Ok? ==> Recent(result.value, now)
      ensures old(cache).Some? && now <= old(cache).value.at + ttl ==> cache == old(cache) && fetches == old(fetches)
    {
      if cache.Some? {
        if DurationSince(now, cache.value.at) <= ttl {
          return Ok(cache.value.catalog);
        }
      }
      result := RefreshAt(now, answer);
      assert result.Ok? ==> Fetch(now, result.value) in fetches;
    }

    /** Through the cache, the relationships are those of the catalog served, which was delivered within the
        time to live; the call fails only when the backend is asked and fails. */
    method ListRelatedTables(databaseName: string, tableName: string, now: nat, answer: Result<Catalog>)
      returns (result: Result<seq<Relationship>>)
      requires Valid()
      modifies this
      ensures Valid()
      ensures result.BackendError? <==> old(Served(now, answer)).BackendError?
      ensures result.Ok? ==>
                var catalog := old(Served(now, answer)).value;
                && Recent(catalog, now)
                && match FindDatabase(catalog.databases, databaseName)
                   case None => result.value == []
                   case Some(database) =>
                     && multiset(result.value) == multiset(Collected(database, tableName))
                     && SortedBy(result.value, KeyLeq)
    {
      hide Collected, SortedBy, FindDatabase, KeyLeq;
      var schema := SchemaAt(now, answer);
      if schema.BackendError? {
        return BackendError;
      }
      var relationships := CollectTableRelationships(schema.value, databaseName, tableName);
      result := Ok(relationships);
    }
  }
}
