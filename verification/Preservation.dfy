/** The preservation manifest of scripts/trading_kernel/verify_schema.py: a digest of a database that forgets the
    order rows are read in, and nothing else. SHA-256 over canonical JSON is a function `sha` of its payload. */
module Preservation {
  import opened Wrappers
  import opened Ordering
  import opened CanonicalValue

  datatype RowManifest = RowManifest(valueDigests: seq<string>, digest: string)

  datatype TableEntry = TableEntry(
    table: string, columns: seq<string>, rowCount: nat, rows: seq<RowManifest>, digest: string)

  datatype Payload =
    | ValuePayload(column: string, value: Json)
    | RowPayload(columns: seq<string>, valueDigests: seq<string>)
    | TablePayload(table: string, columns: seq<string>, rowCount: nat, rows: seq<RowManifest>)
    | ManifestPayload(schema: string, sourceRevision: string, tables: seq<TableEntry>, tableCount: nat, rowCount: nat)

  type Hash = Payload -> string

  ghost predicate Injective(sha: Hash) {
    forall a: Payload, b: Payload :: sha(a) == sha(b) ==> a == b
  }

  type DbRow = map<string, Value>

  datatype Table = Table(name: string, columns: seq<string>)

  /** The rows of each table, in the order they happened to be read. */
  type Database = map<string, seq<DbRow>>

  predicate RowFits(columns: seq<string>, row: DbRow) {
    forall column <- columns :: column in row.Keys && Supported(row[column])
  }

  predicate TableFits(t: Table, db: Database) {
    t.name in db.Keys && forall row <- db[t.name] :: RowFits(t.columns, row)
  }

  /** A row as it enters the digest: its source columns only, each in canonical form. */
  function CanonicalRow(columns: seq<string>, row: DbRow): (r: seq<Json>)
    requires RowFits(columns, row)
    ensures |r| == |columns| && forall i | 0 <= i < |columns| :: r[i] == Canonical(row[columns[i]])
  {
    seq(|columns|, i requires 0 <= i < |columns| => Canonical(row[columns[i]]))
  }

  function CanonicalRows(columns: seq<string>, rows: seq<DbRow>): (r: seq<seq<Json>>)
    requires forall row <- rows :: RowFits(columns, row)
    ensures |r| == |rows| && forall i | 0 <= i < |rows| :: r[i] == CanonicalRow(columns, rows[i])
  {
    seq(|rows|, i requires 0 <= i < |rows| => CanonicalRow(columns, rows[i]))
  }

  predicate Fits(schema: seq<Table>, db: Database) {
    forall i | 0 <= i < |schema| :: TableFits(schema[i], db)
  }

  function TableRows(t: Table, db: Database): seq<seq<Json>>
    requires TableFits(t, db)
  {
    CanonicalRows(t.columns, db[t.name])
  }

  // ----- the manifest -----

  /** `_row_manifest` of a row in canonical form. */
  function RowManifestOf(sha: Hash, columns: seq<string>, values: seq<Json>): RowManifest {
    var digests := seq(|columns|, i requires 0 <= i < |columns| =>
                       if i < |values| then sha(ValuePayload(columns[i], values[i])) else "");
    RowManifest(digests, sha(RowPayload(columns, digests)))
  }

  function Mapped<A, B>(f: A -> B, s: seq<A>): (r: seq<B>)
    ensures |r| == |s| && forall i | 0 <= i < |s| :: r[i] == f(s[i])
  {
    seq(|s|, i requires 0 <= i < |s| => f(s[i]))
  }

  predicate DigestLess(a: RowManifest, b: RowManifest) {
    StringLess(a.digest, b.digest)
  }

  function EntryOf(sha: Hash, t: Table, rows: seq<seq<Json>>): TableEntry {
    var manifests := SortValues(DigestLess, Mapped(values => RowManifestOf(sha, t.columns, values), rows));
    TableEntry(t.name, t.columns, |manifests|, manifests, sha(TablePayload(t.name, t.columns, |manifests|, manifests)))
  }

  function EntriesOf(sha: Hash, schema: seq<Table>, db: Database): (entries: seq<TableEntry>)
    requires Fits(schema, db)
    ensures |entries| == |schema|
  {
    if schema == [] then []
    else
      var last := schema[|schema| - 1];
      EntriesOf(sha, schema[..|schema| - 1], db) + [EntryOf(sha, last, TableRows(last, db))]
  }

  function TotalRows(entries: seq<TableEntry>): nat {
    if entries == [] then 0 else TotalRows(entries[..|entries| - 1]) + entries[|entries| - 1].rowCount
  }

  function ManifestOf(schemaName: string, revision: string, entries: seq<TableEntry>): Payload {
    ManifestPayload(schemaName, revision, entries, |entries|, TotalRows(entries))
  }

  /** `_row_manifest`, which refuses a value of an unsupported type. */
  method BuildRow(sha: Hash, columns: seq<string>, row: DbRow) returns (r: Result<RowManifest, string>)
    requires forall column <- columns :: column in row.Keys
    ensures r.Ok? <==> RowFits(columns, row)
    ensures r.Ok? ==> r.value == RowManifestOf(sha, columns, CanonicalRow(columns, row))
  {
    var digests: seq<string> := [];
    for i := 0 to |columns|
      invariant |digests| == i
      invariant forall k | 0 <= k < i ::
                  Supported(row[columns[k]]) && digests[k] == sha(ValuePayload(columns[k], Canonical(row[columns[k]])))
    {
      if !Supported(row[columns[i]]) {
        return Err("unsupported preservation value type");
      }
      digests := digests + [sha(ValuePayload(columns[i], Canonical(row[columns[i]])))];
    }
    assert RowFits(columns, row);
    assert digests == RowManifestOf(sha, columns, CanonicalRow(columns, row)).valueDigests;
    return Ok(RowManifest(digests, sha(RowPayload(columns, digests))));
  }

  /** The rows of one table, in canonical form and sorted by their own digest. */
  method BuildEntry(sha: Hash, t: Table, rows: seq<DbRow>) returns (r: Result<TableEntry, string>)
    requires forall row <- rows, column <- t.columns :: column in row.Keys
    ensures r.Ok? <==> forall row <- rows :: RowFits(t.columns, row)
    ensures r.Ok? ==> r.value == EntryOf(sha, t, CanonicalRows(t.columns, rows))
  {
    hide RowManifestOf, RowFits;
    var manifests: seq<RowManifest> := [];
    for i := 0 to |rows|
      invariant |manifests| == i
      invariant forall k | 0 <= k < i ::
                  RowFits(t.columns, rows[k])
                  && manifests[k] == RowManifestOf(sha, t.columns, CanonicalRow(t.columns, rows[k]))
    {
      var row :- BuildRow(sha, t.columns, rows[i]);
      manifests := manifests + [row];
    }
    assert manifests == Mapped(values => RowManifestOf(sha, t.columns, values), CanonicalRows(t.columns, rows));
    var sorted := SortValues(DigestLess, manifests);
    return Ok(TableEntry(t.name, t.columns, |sorted|, sorted, sha(TablePayload(t.name, t.columns, |sorted|, sorted))));
  }

  /** `_exit_profile_source_preservation_manifest`: entries appended table by table, rows totalled alongside. */
  method BuildManifest(sha: Hash, schemaName: string, revision: string, schema: seq<Table>, db: Database)
    returns (r: Result<(Payload, string), string>)
    requires forall t <- schema :: t.name in db.Keys && forall row <- db[t.name], column <- t.columns :: column in row.Keys
    ensures r.Ok? <==> Fits(schema, db)
    ensures r.Ok? ==>
              && r.value.0 == ManifestOf(schemaName, revision, EntriesOf(sha, schema, db))
              && r.value.1 == sha(r.value.0)
  {
    hide EntryOf, RowFits;
    var entries: seq<TableEntry> := [];
    var totalRows := 0;
    for i := 0 to |schema|
      invariant Fits(schema[..i], db)
      invariant entries == EntriesOf(sha, schema[..i], db)
      invariant totalRows == TotalRows(entries)
    {
      var t := schema[i];
      var entry :- BuildEntry(sha, t, db[t.name]);
      assert schema[..i + 1][..i] == schema[..i];
      totalRows := totalRows + entry.rowCount;
      entries := entries + [entry];
    }
    assert schema[..|schema|] == schema;
    var payload := ManifestPayload(schemaName, revision, entries, |entries|, totalRows);
    return Ok((payload, sha(payload)));
  }

  // ----- the manifest, part by part -----

  /** A row's entry: a digest a column, of its name and canonical value, and the digest of them all. */
  lemma RowInFull(sha: Hash, columns: seq<string>, row: DbRow)
    requires RowFits(columns, row)
    ensures
      var m := RowManifestOf(sha, columns, CanonicalRow(columns, row));
      && |m.valueDigests| == |columns| && m.digest == sha(RowPayload(columns, m.valueDigests))
      && forall i | 0 <= i < |columns| :: m.valueDigests[i] == sha(ValuePayload(columns[i], Canonical(row[columns[i]])))
  {
  }

  /** A table's entry: its name and columns, as many row entries as rows, ascending by digest, and the digest of it all. */
  lemma EntryInFull(sha: Hash, t: Table, rows: seq<seq<Json>>)
    ensures
      var e := EntryOf(sha, t, rows);
      && e.table == t.name && e.columns == t.columns && e.rowCount == |rows| == |e.rows|
      && multiset(e.rows) == multiset(seq(|rows|, i requires 0 <= i < |rows| => RowManifestOf(sha, t.columns, rows[i])))
      && (forall i, j | 0 <= i < j < |e.rows| :: !StringLess(e.rows[j].digest, e.rows[i].digest))
      && e.digest == sha(TablePayload(t.name, t.columns, |rows|, e.rows))
  {
    DigestLessIsWeak();
    var manifests := Mapped(values => RowManifestOf(sha, t.columns, values), rows);
    SortValuesKeeps(DigestLess, manifests);
    assert manifests == seq(|rows|, i requires 0 <= i < |rows| => RowManifestOf(sha, t.columns, rows[i]));
    assert |multiset(SortValues(DigestLess, manifests))| == |multiset(manifests)|;
    hide RowManifestOf;
    var sorted := SortValues(DigestLess, manifests);
    forall i, j | 0 <= i < j < |sorted| ensures !StringLess(sorted[j].digest, sorted[i].digest) {
      assert !DigestLess(sorted[j], sorted[i]);
    }
  }

  /** All rows of all tables. */
  function RowsIn(schema: seq<Table>, db: Database): nat
    requires Fits(schema, db)
  {
    if schema == [] then 0
    else RowsIn(schema[..|schema| - 1], db) + |db[schema[|schema| - 1].name]|
  }

  /** The manifest: an entry a table, in the order of the schema, and how many tables and rows there are. */
  lemma {:induction false} ManifestInFull(sha: Hash, schemaName: string, revision: string, schema: seq<Table>, db: Database)
    requires Fits(schema, db)
    ensures
      var m := ManifestOf(schemaName, revision, EntriesOf(sha, schema, db));
      && m.schema == schemaName && m.sourceRevision == revision && m.tableCount == |schema| == |m.tables|
      && m.rowCount == RowsIn(schema, db)
      && forall i | 0 <= i < |schema| :: m.tables[i] == EntryOf(sha, schema[i], TableRows(schema[i], db))
  {
    forall i | 0 <= i < |schema|
      ensures EntriesOf(sha, schema, db)[i] == EntryOf(sha, schema[i], TableRows(schema[i], db))
    {
      EntryAt(sha, schema, db, i);
    }
    RowsCounted(sha, schema, db);
  }

  lemma {:induction false} RowsCounted(sha: Hash, schema: seq<Table>, db: Database)
    requires Fits(schema, db)
    ensures TotalRows(EntriesOf(sha, schema, db)) == RowsIn(schema, db)
  {
    hide EntryOf;
    if schema != [] {
      var init, last := schema[..|schema| - 1], schema[|schema| - 1];
      RowsCounted(sha, init, db);
      EntryInFull(sha, last, TableRows(last, db));
      var entries := EntriesOf(sha, schema, db);
      assert entries[..|entries| - 1] == EntriesOf(sha, init, db);
    }
  }

  // ----- what the digest determines -----

  /** A row's digest determines its canonical form. */
  lemma RowDigestExact(sha: Hash, columns: seq<string>, a: seq<Json>, b: seq<Json>)
    requires Injective(sha) && |a| == |b| == |columns|
    ensures RowManifestOf(sha, columns, a).digest == RowManifestOf(sha, columns, b).digest <==> a == b
  {
    var x, y := RowManifestOf(sha, columns, a), RowManifestOf(sha, columns, b);
    if x.digest == y.digest {
      assert RowPayload(columns, x.valueDigests) == RowPayload(columns, y.valueDigests);
      forall i | 0 <= i < |columns| ensures a[i] == b[i] {
        assert x.valueDigests[i] == y.valueDigests[i];
        assert ValuePayload(columns[i], a[i]) == ValuePayload(columns[i], b[i]);
      }
    }
  }

  lemma {:induction false} MappedCount<A, B>(f: A -> B, s: seq<A>, x: A)
    requires forall y <- s :: f(y) == f(x) ==> y == x
    ensures multiset(Mapped(f, s))[f(x)] == multiset(s)[x]
  {
    if s != [] {
      var init, last := s[..|s| - 1], s[|s| - 1];
      MappedCount(f, init, x);
      assert s == init + [last];
      assert Mapped(f, s) == Mapped(f, init) + [f(last)];
    }
  }

  /** A one-to-one image has the same multiplicities. */
  lemma MappedExact<A(!new), B(!new)>(f: A -> B, s: seq<A>, t: seq<A>)
    requires forall x <- s + t, y <- s + t :: f(x) == f(y) ==> x == y
    ensures multiset(Mapped(f, s)) == multiset(Mapped(f, t)) <==> multiset(s) == multiset(t)
  {
    forall x | x in s + t
      ensures multiset(Mapped(f, s))[f(x)] == multiset(s)[x] && multiset(Mapped(f, t))[f(x)] == multiset(t)[x]
    {
      MappedCount(f, s, x);
      MappedCount(f, t, x);
    }
    if multiset(Mapped(f, s)) == multiset(Mapped(f, t)) {
      forall x ensures multiset(s)[x] == multiset(t)[x] {
        if x in s + t {
          assert multiset(Mapped(f, s))[f(x)] == multiset(Mapped(f, t))[f(x)];
        }
      }
    }
    if multiset(s) == multiset(t) {
      forall y ensures multiset(Mapped(f, s))[y] == multiset(Mapped(f, t))[y] {
        if y in Mapped(f, s) {
          var i :| 0 <= i < |s| && Mapped(f, s)[i] == y;
          assert s[i] in s + t && f(s[i]) == y;
        }
        if y in Mapped(f, t) {
          var i :| 0 <= i < |t| && Mapped(f, t)[i] == y;
          assert t[i] in s + t && f(t[i]) == y;
        }
      }
    }
  }

  lemma DigestLessIsWeak()
    ensures StrictWeak(DigestLess)
  {
    forall a: RowManifest, b: RowManifest ensures DigestLess(a, b) ==> !DigestLess(b, a) {
      StringLessTotal(a.digest, b.digest);
    }
    forall a: RowManifest, b: RowManifest, c: RowManifest | DigestLess(a, b) && DigestLess(b, c) ensures DigestLess(a, c) {
      StringLessTransitive(a.digest, b.digest, c.digest);
    }
    forall a: RowManifest, b: RowManifest, c: RowManifest | DigestLess(a, c) ensures DigestLess(a, b) || DigestLess(b, c) {
      StringLessTotal(a.digest, b.digest);
      if DigestLess(b, a) {
        StringLessTransitive(b.digest, a.digest, c.digest);
      }
    }
  }

  ghost predicate Shaped(t: Table, rows: seq<seq<Json>>) {
    forall row <- rows :: |row| == |t.columns|
  }

  /** A table's digest determines its rows up to their order, and they determine it. */
  lemma EntryExact(sha: Hash, t: Table, rows: seq<seq<Json>>, rows': seq<seq<Json>>)
    requires Injective(sha) && Shaped(t, rows) && Shaped(t, rows')
    ensures EntryOf(sha, t, rows) == EntryOf(sha, t, rows') <==> multiset(rows) == multiset(rows')
  {
    var f := (values: seq<Json>) => RowManifestOf(sha, t.columns, values);
    var s, s' := Mapped(f, rows), Mapped(f, rows');
    RowsSeparate(sha, t, rows);
    DigestLessIsWeak();
    SortedIffSame(DigestLess, s, s');
    forall x, y | x in rows + rows' && y in rows + rows' && f(x) == f(y) ensures x == y {
      RowDigestExact(sha, t.columns, x, y);
    }
    MappedExact(f, rows, rows');
    var e, e' := EntryOf(sha, t, rows), EntryOf(sha, t, rows');
    assert e.rows == SortValues(DigestLess, s) && e'.rows == SortValues(DigestLess, s');
  }

  lemma RowsSeparate(sha: Hash, t: Table, rows: seq<seq<Json>>)
    requires Injective(sha) && Shaped(t, rows)
    ensures Separates(DigestLess, Mapped(values => RowManifestOf(sha, t.columns, values), rows))
  {
    var s := Mapped((values: seq<Json>) => RowManifestOf(sha, t.columns, values), rows);
    forall a, b | a in s && b in s && a != b ensures DigestLess(a, b) || DigestLess(b, a) {
      var i :| 0 <= i < |s| && s[i] == a;
      var j :| 0 <= j < |s| && s[j] == b;
      assert rows[i] in rows && rows[j] in rows;
      RowDigestExact(sha, t.columns, rows[i], rows[j]);
      StringLessTotal(a.digest, b.digest);
    }
  }

  /** The same canonical rows in every table, up to order. */
  ghost predicate SameRows(schema: seq<Table>, db: Database, db': Database)
    requires Fits(schema, db) && Fits(schema, db')
  {
    forall i | 0 <= i < |schema| :: multiset(TableRows(schema[i], db)) == multiset(TableRows(schema[i], db'))
  }

  lemma {:induction false} EntryAt(sha: Hash, schema: seq<Table>, db: Database, i: nat)
    requires Fits(schema, db) && i < |schema|
    ensures EntriesOf(sha, schema, db)[i] == EntryOf(sha, schema[i], TableRows(schema[i], db))
  {
    if i < |schema| - 1 {
      EntryAt(sha, schema[..|schema| - 1], db, i);
    }
  }

  lemma EntriesExact(sha: Hash, schema: seq<Table>, db: Database, db': Database)
    requires Injective(sha) && Fits(schema, db) && Fits(schema, db')
    ensures EntriesOf(sha, schema, db) == EntriesOf(sha, schema, db') <==> SameRows(schema, db, db')
  {
    var e, e' := EntriesOf(sha, schema, db), EntriesOf(sha, schema, db');
    hide EntriesOf, EntryOf, Injective;
    forall i: nat | i < |schema|
      ensures e[i] == e'[i] <==> multiset(TableRows(schema[i], db)) == multiset(TableRows(schema[i], db'))
    {
      EntryAt(sha, schema, db, i);
      EntryAt(sha, schema, db', i);
      EntryExact(sha, schema[i], TableRows(schema[i], db), TableRows(schema[i], db'));
    }
    hide TableRows, TableFits;
    if SameRows(schema, db, db') {
      assert forall i: nat | i < |schema| :: e[i] == e'[i];
    }
  }

  /** Two database states have equal digests exactly when every table holds the same canonical rows, however
      often each and in whatever order they were read. */
  lemma DigestExact(sha: Hash, schemaName: string, revision: string, schema: seq<Table>, db: Database, db': Database)
    requires Injective(sha) && Fits(schema, db) && Fits(schema, db')
    ensures sha(ManifestOf(schemaName, revision, EntriesOf(sha, schema, db)))
            == sha(ManifestOf(schemaName, revision, EntriesOf(sha, schema, db')))
            <==> SameRows(schema, db, db')
  {
    EntriesExact(sha, schema, db, db');
  }

  // ----- with one value type a column -----

  function SourceRow(columns: seq<string>, row: DbRow): (r: seq<Value>)
    requires RowFits(columns, row)
    ensures |r| == |columns| && forall i | 0 <= i < |columns| :: r[i] == row[columns[i]]
  {
    seq(|columns|, i requires 0 <= i < |columns| => row[columns[i]])
  }

  /** The rows of a table as tuples of values, in the order they were read. */
  function SourceRows(t: Table, db: Database): (r: seq<seq<Value>>)
    requires TableFits(t, db)
    ensures |r| == |db[t.name]| && forall i | 0 <= i < |r| :: r[i] == SourceRow(t.columns, db[t.name][i])
  {
    seq(|db[t.name]|, i requires 0 <= i < |db[t.name]| => SourceRow(t.columns, db[t.name][i]))
  }

  type Kinds = (string, string) -> Kind

  /** Every column of every table holds values of its own type, or nulls. */
  predicate Typed(t: Table, db: Database, kinds: Kinds)
    requires TableFits(t, db)
  {
    forall row <- SourceRows(t, db) :: RowTyped(t, row, kinds)
  }

  predicate RowTyped(t: Table, row: seq<Value>, kinds: Kinds) {
    |row| == |t.columns| && forall i | 0 <= i < |row| :: Supported(row[i]) && HasKind(row[i], kinds(t.name, t.columns[i]))
  }

  function CanonicalValues(values: seq<Value>): (r: seq<Json>)
    ensures |r| == |values| && forall i | 0 <= i < |r| :: Supported(values[i]) ==> r[i] == Canonical(values[i])
  {
    seq(|values|, i requires 0 <= i < |values| => if Supported(values[i]) then Canonical(values[i]) else JsonNull)
  }

  lemma TypedRowExact(t: Table, a: seq<Value>, b: seq<Value>, kinds: Kinds)
    requires RowTyped(t, a, kinds) && RowTyped(t, b, kinds)
    ensures CanonicalValues(a) == CanonicalValues(b) ==> a == b
  {
    if CanonicalValues(a) == CanonicalValues(b) {
      forall i | 0 <= i < |a| ensures a[i] == b[i] {
        assert CanonicalValues(a)[i] == CanonicalValues(b)[i];
        CanonicalInjective(a[i], b[i], kinds(t.name, t.columns[i]));
      }
    }
  }

  lemma TableIsMapped(t: Table, db: Database)
    requires TableFits(t, db)
    ensures TableRows(t, db) == Mapped(CanonicalValues, SourceRows(t, db))
  {
    var rows := db[t.name];
    forall i | 0 <= i < |rows| ensures TableRows(t, db)[i] == CanonicalValues(SourceRows(t, db)[i]) {
      assert rows[i] in rows;
      assert RowFits(t.columns, rows[i]);
      var a, b := TableRows(t, db)[i], CanonicalValues(SourceRows(t, db)[i]);
      forall k | 0 <= k < |t.columns| ensures a[k] == b[k] {
        assert t.columns[k] in t.columns;
      }
    }
  }

  lemma TypedTableExact(t: Table, db: Database, db': Database, kinds: Kinds)
    requires TableFits(t, db) && TableFits(t, db') && Typed(t, db, kinds) && Typed(t, db', kinds)
    ensures multiset(TableRows(t, db)) == multiset(TableRows(t, db'))
            <==> multiset(SourceRows(t, db)) == multiset(SourceRows(t, db'))
  {
    var s, s' := SourceRows(t, db), SourceRows(t, db');
    TableIsMapped(t, db);
    TableIsMapped(t, db');
    forall x, y | x in s + s' && y in s + s' && CanonicalValues(x) == CanonicalValues(y) ensures x == y {
      TypedRowExact(t, x, y, kinds);
    }
    MappedExact(CanonicalValues, s, s');
  }

  /** With one value type a column, equal digests mean the same rows and the same rows mean equal digests. */
  lemma TypedDigestExact(sha: Hash, schemaName: string, revision: string, schema: seq<Table>, db: Database,
                         db': Database, kinds: Kinds)
    requires Injective(sha) && Fits(schema, db) && Fits(schema, db')
    requires forall i | 0 <= i < |schema| :: Typed(schema[i], db, kinds) && Typed(schema[i], db', kinds)
    ensures sha(ManifestOf(schemaName, revision, EntriesOf(sha, schema, db)))
            == sha(ManifestOf(schemaName, revision, EntriesOf(sha, schema, db')))
            <==> forall i | 0 <= i < |schema| :: multiset(SourceRows(schema[i], db)) == multiset(SourceRows(schema[i], db'))
  {
    DigestExact(sha, schemaName, revision, schema, db, db');
    forall i | 0 <= i < |schema|
      ensures multiset(TableRows(schema[i], db)) == multiset(TableRows(schema[i], db'))
              <==> multiset(SourceRows(schema[i], db)) == multiset(SourceRows(schema[i], db'))
    {
      TypedTableExact(schema[i], db, db', kinds);
    }
  }

  /** Without the value types it fails: a column whose decimal 10 became the text "10" keeps its digest. */
  lemma RetypedColumnKeepsDigest(sha: Hash, column: string)
    ensures
      var schema := [Table("t", [column])];
      var db, db' := map["t" := [map[column := Decimal(10, 0)]]], map["t" := [map[column := Text("10")]]];
      && Fits(schema, db) && Fits(schema, db') && SourceRows(schema[0], db) != SourceRows(schema[0], db')
      && EntriesOf(sha, schema, db) == EntriesOf(sha, schema, db')
  {
    CanonicalCollides();
    var t := Table("t", [column]);
    var schema := [t];
    var db: Database, db': Database := map["t" := [map[column := Decimal(10, 0)]]], map["t" := [map[column := Text("10")]]];
    assert SourceRows(t, db)[0][0] == Decimal(10, 0) && SourceRows(t, db')[0][0] == Text("10");
    assert TableRows(t, db) == TableRows(t, db') by {
      assert TableRows(t, db)[0][0] == TableRows(t, db')[0][0];
      assert TableRows(t, db)[0] == TableRows(t, db')[0];
    }
    assert schema[..0] == [];
    EntryAt(sha, schema, db, 0);
    EntryAt(sha, schema, db', 0);
    assert EntriesOf(sha, schema, db) == EntriesOf(sha, schema, db');
  }
}
