/** The 0008 normalisation, which moves the long and short references of three parent tables into one event row
    a side and renames the session columns, and the projection with which `_generic_source_preservation_manifest`
    rebuilds the source rows from the other side. */
module Normalisation {
  import opened Wrappers
  import opened CanonicalValue
  import opened Preservation

  /** Where a parent table keeps its identity and its two references. */
  datatype Pair = Pair(identityColumn: string, longColumn: string, shortColumn: string)

  datatype Parent = Parent(table: Table, pair: Option<Pair>) {
    function PairColumns(): set<string> {
      if pair.Some? then {pair.value.longColumn, pair.value.shortColumn} else {}
    }

    /** The source columns that stay in the parent table. */
    function Kept(): set<string> {
      set column <- table.columns | column !in PairColumns()
    }

    function Columns(): set<string> {
      set column <- table.columns
    }

    /** The new names are not taken, and a pair names three different columns of the table. */
    predicate Valid() {
      && "period_anchor_ms" !in table.columns && "pending_effective_period_anchor_ms" !in table.columns
      && (pair.Some? ==>
            && pair.value.identityColumn in table.columns
            && pair.value.longColumn in table.columns && pair.value.shortColumn in table.columns
            && pair.value.identityColumn != pair.value.longColumn && pair.value.identityColumn != pair.value.shortColumn
            && pair.value.longColumn != pair.value.shortColumn)
    }
  }

  /** An event row: one side of one parent. */
  datatype Binding = Binding(identity: Value, side: string, version: Value)

  function Physical(column: string): string {
    if column == "session_start_ms" then "period_anchor_ms"
    else if column == "pending_effective_session_start_ms" then "pending_effective_period_anchor_ms"
    else column
  }

  function Logical(column: string): string {
    if column == "period_anchor_ms" then "session_start_ms"
    else if column == "pending_effective_period_anchor_ms" then "pending_effective_session_start_ms"
    else column
  }

  // ----- the migration -----

  function NormaliseRow(p: Parent, row: DbRow): DbRow
    requires p.Valid() && row.Keys == p.Columns()
  {
    map column | column in (set k <- p.Kept() :: Physical(k)) :: row[Logical(column)]
  }

  function BindingsOf(pair: Pair, row: DbRow): seq<Binding>
    requires pair.identityColumn in row && pair.longColumn in row && pair.shortColumn in row
  {
    [Binding(row[pair.identityColumn], "long", row[pair.longColumn]),
     Binding(row[pair.identityColumn], "short", row[pair.shortColumn])]
  }

  predicate Sourced(p: Parent, rows: seq<DbRow>) {
    p.Valid() && forall i | 0 <= i < |rows| :: rows[i].Keys == p.Columns()
  }

  function NormaliseBindings(p: Parent, rows: seq<DbRow>): seq<Binding>
    requires Sourced(p, rows)
  {
    if rows == [] || p.pair.None? then []
    else NormaliseBindings(p, rows[..|rows| - 1]) + BindingsOf(p.pair.value, rows[|rows| - 1])
  }

  function NormaliseRows(p: Parent, rows: seq<DbRow>): seq<DbRow>
    requires Sourced(p, rows)
  {
    seq(|rows|, i requires 0 <= i < |rows| => NormaliseRow(p, rows[i]))
  }

  // ----- what the migration does, column by column -----

  /** Two columns are renamed, the pair leaves the row, and everything else stays. */
  lemma NormalisedRow(p: Parent, row: DbRow)
    requires p.Valid() && row.Keys == p.Columns()
    ensures
      var stored := NormaliseRow(p, row);
      && ("session_start_ms" in p.Kept() ==>
            "period_anchor_ms" in stored && stored["period_anchor_ms"] == row["session_start_ms"])
      && ("pending_effective_session_start_ms" in p.Kept() ==>
            "pending_effective_period_anchor_ms" in stored
            && stored["pending_effective_period_anchor_ms"] == row["pending_effective_session_start_ms"])
      && (forall column <- p.Kept() | column != "session_start_ms" && column != "pending_effective_session_start_ms" ::
            column in stored && stored[column] == row[column])
      && (forall column <- stored :: column in p.Kept()
                                     || (column == "period_anchor_ms" && "session_start_ms" in p.Kept())
                                     || (column == "pending_effective_period_anchor_ms"
                                         && "pending_effective_session_start_ms" in p.Kept()))
      && "session_start_ms" !in stored && "pending_effective_session_start_ms" !in stored
  {
    var stored := NormaliseRow(p, row);
    forall column <- p.Kept() ensures Physical(column) in stored && Logical(Physical(column)) == column {
    }
    assert "session_start_ms" in p.Kept() ==> Physical("session_start_ms") in stored;
    assert "pending_effective_session_start_ms" in p.Kept() ==> Physical("pending_effective_session_start_ms") in stored;
  }

  /** Each row leaves two event rows, its long reference and its short one. */
  lemma {:induction false} NormalisedBindings(p: Parent, rows: seq<DbRow>, i: nat)
    requires Sourced(p, rows) && p.pair.Some? && i < |rows|
    ensures
      var bindings, pair := NormaliseBindings(p, rows), p.pair.value;
      && |bindings| == 2 * |rows|
      && bindings[2 * i] == Binding(rows[i][pair.identityColumn], "long", rows[i][pair.longColumn])
      && bindings[2 * i + 1] == Binding(rows[i][pair.identityColumn], "short", rows[i][pair.shortColumn])
  {
    if |rows| > 1 {
      NormalisedBindings(p, rows[..|rows| - 1], if i < |rows| - 1 then i else 0);
    } else {
      assert NormaliseBindings(p, rows[..0]) == [];
    }
  }

  // ----- the projection -----

  /** The event rows of one parent, in the order they are read. */
  function Matching(bindings: seq<Binding>, identity: Value): seq<Binding> {
    if bindings == [] then []
    else
      var last := bindings[|bindings| - 1];
      Matching(bindings[..|bindings| - 1], identity) + if last.identity == identity then [last] else []
  }

  /** What a dictionary keyed by side ends up holding. */
  function VersionOf(bindings: seq<Binding>, side: string): Value {
    if bindings == [] then Null
    else if bindings[|bindings| - 1].side == side then bindings[|bindings| - 1].version
    else VersionOf(bindings[..|bindings| - 1], side)
  }

  function Sides(bindings: seq<Binding>): set<string> {
    set b <- bindings :: b.side
  }

  predicate Stored(p: Parent, row: DbRow) {
    forall column <- p.Kept() :: Physical(column) in row.Keys
  }

  function ProjectRow(p: Parent, stored: DbRow, bindings: seq<Binding>): (r: Result<DbRow, string>)
    requires p.Valid() && Stored(p, stored)
  {
    var projected := map column <- p.Kept() :: stored[Physical(column)];
    match p.pair
    case None => Ok(projected)
    case Some(pair) =>
      var matching := Matching(bindings, projected[pair.identityColumn]);
      if |matching| != 2 || Sides(matching) != {"long", "short"} then Err("Generic preservation Event mapping is invalid")
      else Ok(projected[pair.longColumn := VersionOf(matching, "long")][pair.shortColumn := VersionOf(matching, "short")])
  }

  /** The loop over the stored rows of one table. */
  method ProjectTable(p: Parent, stored: seq<DbRow>, bindings: seq<Binding>) returns (r: Result<seq<DbRow>, string>)
    requires p.Valid() && forall i | 0 <= i < |stored| :: Stored(p, stored[i])
    ensures r.Ok? <==> forall i | 0 <= i < |stored| :: ProjectRow(p, stored[i], bindings).Ok?
    ensures r.Ok? ==>
              |r.value| == |stored| && forall i | 0 <= i < |stored| :: ProjectRow(p, stored[i], bindings) == Ok(r.value[i])
  {
    var projected: seq<DbRow> := [];
    for i := 0 to |stored|
      invariant |projected| == i
      invariant forall k | 0 <= k < i :: ProjectRow(p, stored[k], bindings) == Ok(projected[k])
    {
      var row :- ProjectRow(p, stored[i], bindings);
      projected := projected + [row];
    }
    return Ok(projected);
  }

  // ----- rejection -----

  function SidesIn(bindings: seq<Binding>): (r: seq<string>)
    ensures |r| == |bindings| && forall i | 0 <= i < |r| :: r[i] == bindings[i].side
  {
    seq(|bindings|, i requires 0 <= i < |bindings| => bindings[i].side)
  }

  lemma TwoSides(s: seq<string>)
    requires |s| == 2
    ensures {s[0], s[1]} == {"long", "short"} <==> multiset(s) == multiset{"long", "short"}
  {
    assert s == [s[0], s[1]];
    assert multiset(s) == multiset{s[0], s[1]};
    if {s[0], s[1]} == {"long", "short"} {
      assert "long" in {s[0], s[1]} && "short" in {s[0], s[1]};
    }
    if multiset{s[0], s[1]} == multiset{"long", "short"} {
      assert s[0] in multiset{"long", "short"} && s[1] in multiset{"long", "short"};
      assert "long" in multiset{s[0], s[1]} && "short" in multiset{s[0], s[1]};
    }
  }

  lemma NotTwoSides(s: seq<string>)
    requires multiset(s) == multiset{"long", "short"}
    ensures |s| == 2
  {
    assert |multiset(s)| == |s|;
  }

  lemma SidesOfTwo(matching: seq<Binding>)
    requires |matching| == 2
    ensures Sides(matching) == {matching[0].side, matching[1].side}
    ensures SidesIn(matching) == [matching[0].side, matching[1].side]
  {
    assert matching == [matching[0], matching[1]];
  }

  /** Two rows, one a side, is what the projection asks of the event rows of a parent. */
  lemma BothSides(matching: seq<Binding>)
    ensures |matching| == 2 && Sides(matching) == {"long", "short"} <==>
            multiset(SidesIn(matching)) == multiset{"long", "short"}
  {
    if |matching| == 2 {
      SidesOfTwo(matching);
      TwoSides(SidesIn(matching));
    } else if multiset(SidesIn(matching)) == multiset{"long", "short"} {
      NotTwoSides(SidesIn(matching));
    }
  }

  /** A parent is rejected exactly when it has not one long and one short event row and nothing else. */
  lemma RejectedExactly(p: Parent, stored: DbRow, bindings: seq<Binding>)
    requires p.Valid() && Stored(p, stored) && p.pair.Some?
    requires Physical(p.pair.value.identityColumn) in stored
    ensures
      var matching := Matching(bindings, stored[Physical(p.pair.value.identityColumn)]);
      ProjectRow(p, stored, bindings).Err? <==> multiset(SidesIn(matching)) != multiset{"long", "short"}
  {
    BothSides(Matching(bindings, stored[Physical(p.pair.value.identityColumn)]));
    hide Matching, Sides, SidesIn, Physical;
  }

  // ----- the round trip -----

  /** The identities of the parents are a key. */
  predicate Keyed(p: Parent, rows: seq<DbRow>)
    requires Sourced(p, rows)
  {
    p.pair.Some? ==>
      forall i, j | 0 <= i < j < |rows| ::
        rows[i][p.pair.value.identityColumn] != rows[j][p.pair.value.identityColumn]
  }

  lemma {:induction false} MatchingCount(bindings: seq<Binding>, identity: Value, b: Binding)
    ensures multiset(Matching(bindings, identity))[b] == if b.identity == identity then multiset(bindings)[b] else 0
  {
    if bindings != [] {
      var init, last := bindings[..|bindings| - 1], bindings[|bindings| - 1];
      MatchingCount(init, identity, b);
      assert bindings == init + [last];
    }
  }

  /** Event rows may be read back in any order. */
  lemma MatchingIgnoresOrder(bindings: seq<Binding>, bindings': seq<Binding>, identity: Value)
    requires multiset(bindings) == multiset(bindings')
    ensures multiset(Matching(bindings, identity)) == multiset(Matching(bindings', identity))
  {
    forall b: Binding
      ensures multiset(Matching(bindings, identity))[b] == multiset(Matching(bindings', identity))[b]
    {
      MatchingCount(bindings, identity, b);
      MatchingCount(bindings', identity, b);
    }
  }

  lemma {:induction false} NoneMatching(p: Parent, rows: seq<DbRow>, identity: Value)
    requires Sourced(p, rows) && p.pair.Some?
    requires forall i | 0 <= i < |rows| :: rows[i][p.pair.value.identityColumn] != identity
    ensures Matching(NormaliseBindings(p, rows), identity) == []
  {
    if rows != [] {
      NoneMatching(p, rows[..|rows| - 1], identity);
      AppendPair(NormaliseBindings(p, rows[..|rows| - 1]), BindingsOf(p.pair.value, rows[|rows| - 1]), identity);
    }
  }

  lemma AppendPair(bindings: seq<Binding>, two: seq<Binding>, identity: Value)
    requires |two| == 2 && two[0].identity == two[1].identity
    ensures Matching(bindings + two, identity)
            == Matching(bindings, identity) + if two[0].identity == identity then two else []
  {
    assert bindings + two == bindings + [two[0]] + [two[1]];
    assert (bindings + [two[0]] + [two[1]])[..|bindings| + 1] == bindings + [two[0]];
    assert (bindings + [two[0]])[..|bindings|] == bindings;
    assert two == [two[0], two[1]];
  }

  /** Each parent finds its own two event rows, and only those. */
  lemma {:induction false} OwnMatching(p: Parent, rows: seq<DbRow>, i: nat)
    requires Sourced(p, rows) && Keyed(p, rows) && p.pair.Some? && i < |rows|
    ensures Matching(NormaliseBindings(p, rows), rows[i][p.pair.value.identityColumn]) == BindingsOf(p.pair.value, rows[i])
  {
    var init, last := rows[..|rows| - 1], rows[|rows| - 1];
    var identity := rows[i][p.pair.value.identityColumn];
    AppendPair(NormaliseBindings(p, init), BindingsOf(p.pair.value, last), identity);
    if i == |rows| - 1 {
      NoneMatching(p, init, identity);
    } else {
      OwnMatching(p, init, i);
    }
  }

  lemma TwoVersions(matching: seq<Binding>, long: Binding, short: Binding)
    requires long.side == "long" && short.side == "short"
    requires multiset(matching) == multiset{long, short}
    ensures |matching| == 2 && Sides(matching) == {"long", "short"}
    ensures VersionOf(matching, "long") == long.version && VersionOf(matching, "short") == short.version
  {
    assert |multiset(matching)| == |matching|;
    assert matching == [matching[0], matching[1]];
    assert multiset(matching) == multiset{matching[0], matching[1]};
    assert matching[0] in multiset(matching) && matching[1] in multiset(matching);
    assert long in multiset(matching) && short in multiset(matching);
    assert long != short;
    assert (matching[0] == long && matching[1] == short) || (matching[0] == short && matching[1] == long);
    assert Sides(matching) == {matching[0].side, matching[1].side};
    assert matching[..1] == [matching[0]];
  }

  /** The columns that stay, there and back. */
  lemma KeptRoundTrip(p: Parent, row: DbRow)
    requires p.Valid() && row.Keys == p.Columns()
    ensures Stored(p, NormaliseRow(p, row))
    ensures forall column <- p.Kept() :: NormaliseRow(p, row)[Physical(column)] == row[column]
  {
    forall column <- p.Kept()
      ensures Physical(column) in NormaliseRow(p, row).Keys && Logical(Physical(column)) == column
    {
    }
  }

  /** The kept columns and the pair make up the row. */
  lemma Rebuilt(p: Parent, row: DbRow)
    requires p.Valid() && row.Keys == p.Columns()
    ensures
      var kept := map column <- p.Kept() :: row[column];
      row == if p.pair.None? then kept
             else kept[p.pair.value.longColumn := row[p.pair.value.longColumn]]
                      [p.pair.value.shortColumn := row[p.pair.value.shortColumn]]
  {
  }

  lemma OwnVersions(p: Parent, rows: seq<DbRow>, bindings: seq<Binding>, i: nat)
    requires Sourced(p, rows) && Keyed(p, rows) && i < |rows| && p.pair.Some?
    requires multiset(bindings) == multiset(NormaliseBindings(p, rows))
    ensures
      var pair := p.pair.value;
      var matching := Matching(bindings, rows[i][pair.identityColumn]);
      && |matching| == 2 && Sides(matching) == {"long", "short"}
      && VersionOf(matching, "long") == rows[i][pair.longColumn]
      && VersionOf(matching, "short") == rows[i][pair.shortColumn]
  {
    var row := rows[i];
    var identity := row[p.pair.value.identityColumn];
    OwnMatching(p, rows, i);
    MatchingIgnoresOrder(bindings, NormaliseBindings(p, rows), identity);
    var own := BindingsOf(p.pair.value, row);
    assert own == [own[0], own[1]];
    TwoVersions(Matching(bindings, identity), own[0], own[1]);
  }

  /** Projecting a normalised row, with the event rows read back in any order, gives the source row. */
  lemma RowRoundTrip(p: Parent, rows: seq<DbRow>, bindings: seq<Binding>, i: nat)
    requires Sourced(p, rows) && Keyed(p, rows) && i < |rows|
    requires multiset(bindings) == multiset(NormaliseBindings(p, rows))
    ensures Stored(p, NormaliseRow(p, rows[i]))
    ensures ProjectRow(p, NormaliseRow(p, rows[i]), bindings) == Ok(rows[i])
  {
    var row := rows[i];
    KeptRoundTrip(p, row);
    Rebuilt(p, row);
    if p.pair.Some? {
      OwnVersions(p, rows, bindings, i);
    }
    hide NormaliseRow, NormaliseBindings, Matching, VersionOf, Sides, Physical, Parent.Columns;
    assert (map column <- p.Kept() :: NormaliseRow(p, row)[Physical(column)]) == map column <- p.Kept() :: row[column];
  }

  function Without<A>(t: seq<A>, j: nat): seq<A>
    requires j < |t|
  {
    t[..j] + t[j + 1..]
  }

  lemma Removed<A>(t: seq<A>, j: nat)
    requires j < |t|
    ensures multiset(t) == multiset{t[j]} + multiset(Without(t, j))
  {
    assert t == t[..j] + [t[j]] + t[j + 1..];
  }

  lemma MappedWithout<A, B>(f: A -> B, t: seq<A>, j: nat)
    requires j < |t|
    ensures Without(Mapped(f, t), j) == Mapped(f, Without(t, j))
  {
  }

  /** The image of a reordered sequence is a reordered image. */
  lemma {:induction false} MappedSame<A, B>(f: A -> B, s: seq<A>, t: seq<A>)
    requires multiset(s) == multiset(t)
    ensures multiset(Mapped(f, s)) == multiset(Mapped(f, t))
    decreases |s|
  {
    if s == [] {
      assert |multiset(t)| == |t|;
    } else {
      assert s[0] in multiset(t);
      var j: nat :| j < |t| && t[j] == s[0];
      Removed(s, 0);
      Removed(t, j);
      hide Without;
      assert multiset(Without(s, 0)) == multiset(s) - multiset{s[0]};
      assert multiset(Without(t, j)) == multiset(t) - multiset{s[0]};
      Shorter(s);
      MappedSame(f, Without(s, 0), Without(t, j));
      MappedWithout(f, s, 0);
      MappedWithout(f, t, j);
      Removed(Mapped(f, s), 0);
      Removed(Mapped(f, t), j);
    }
  }

  lemma Shorter<A>(s: seq<A>)
    requires s != []
    ensures |Without(s, 0)| == |s| - 1
  {
  }

  /** The same source rows in another order have the same canonical rows up to order. */
  lemma ReorderedTable(t: Table, db: Database, db': Database)
    requires TableFits(t, db) && TableFits(t, db') && multiset(db[t.name]) == multiset(db'[t.name])
    ensures multiset(TableRows(t, db)) == multiset(TableRows(t, db'))
  {
    var f := (row: DbRow) => if RowFits(t.columns, row) then CanonicalRow(t.columns, row) else [];
    MappedSame(f, db[t.name], db'[t.name]);
    assert TableRows(t, db) == Mapped(f, db[t.name]);
    assert TableRows(t, db') == Mapped(f, db'[t.name]);
  }

  /** One table on the other side of the migration: its rows as they are read back, and its event rows, both in
      any order. */
  ghost predicate Migrated(p: Parent, rows: seq<DbRow>, stored: seq<DbRow>, bindings: seq<Binding>, readBack: seq<DbRow>)
    requires Sourced(p, rows)
  {
    && multiset(readBack) == multiset(rows)
    && Sourced(p, readBack) && stored == NormaliseRows(p, readBack)
    && multiset(bindings) == multiset(NormaliseBindings(p, rows))
  }

  /** The projection of a migrated table is its source rows, in the order they were read back. */
  lemma TableRoundTrip(p: Parent, rows: seq<DbRow>, stored: seq<DbRow>, bindings: seq<Binding>, readBack: seq<DbRow>)
    requires Sourced(p, rows) && Keyed(p, rows) && Migrated(p, rows, stored, bindings, readBack)
    ensures |stored| == |readBack|
    ensures forall k | 0 <= k < |stored| ::
              Stored(p, stored[k]) && ProjectRow(p, stored[k], bindings) == Ok(readBack[k])
  {
    hide ProjectRow, NormaliseRow;
    forall k | 0 <= k < |stored| ensures Stored(p, stored[k]) && ProjectRow(p, stored[k], bindings) == Ok(readBack[k]) {
      assert readBack[k] in multiset(readBack);
      assert readBack[k] in multiset(rows);
      var i :| 0 <= i < |rows| && rows[i] == readBack[k];
      RowRoundTrip(p, rows, bindings, i);
    }
  }

  // ----- the manifest on either side -----

  function SchemaOf(parents: seq<Parent>): (r: seq<Table>)
    ensures |r| == |parents| && forall i | 0 <= i < |r| :: r[i] == parents[i].table
  {
    seq(|parents|, i requires 0 <= i < |parents| => parents[i].table)
  }

  type EventRows = map<string, seq<Binding>>

  /** The tables a manifest reads, on the side it reads them. */
  predicate Readable(parents: seq<Parent>, stored: Database, events: EventRows, target: bool) {
    && (forall i, j | 0 <= i < j < |parents| :: parents[i].table.name != parents[j].table.name)
    && forall i | 0 <= i < |parents| :: TableReadable(parents[i], stored, events, target)
  }

  predicate TableReadable(p: Parent, stored: Database, events: EventRows, target: bool) {
    && p.Valid() && p.table.name in stored.Keys && p.table.name in events.Keys
    && forall k | 0 <= k < |stored[p.table.name]| ::
         if target then Stored(p, stored[p.table.name][k]) else stored[p.table.name][k].Keys == p.Columns()
  }

  /** The rows that enter the manifest: on the source side as they are, on the target side projected. */
  predicate Projected(p: Parent, stored: Database, events: EventRows, target: bool, rows: seq<DbRow>)
    requires TableReadable(p, stored, events, target)
  {
    && |rows| == |stored[p.table.name]|
    && forall k | 0 <= k < |rows| ::
         if target then ProjectRow(p, stored[p.table.name][k], events[p.table.name]) == Ok(rows[k])
         else rows[k] == stored[p.table.name][k]
  }

  lemma ProjectedColumns(p: Parent, stored: DbRow, bindings: seq<Binding>)
    requires p.Valid() && Stored(p, stored) && ProjectRow(p, stored, bindings).Ok?
    ensures ProjectRow(p, stored, bindings).value.Keys == p.Columns()
  {
  }

  /** One table of the manifest. */
  method ReadTable(p: Parent, stored: Database, events: EventRows, target: bool) returns (r: Result<seq<DbRow>, string>)
    requires TableReadable(p, stored, events, target)
    ensures r.Ok? ==>
              Projected(p, stored, events, target, r.value)
              && forall k | 0 <= k < |r.value| :: r.value[k].Keys == p.Columns()
    ensures r.Err? <==>
              target && exists k | 0 <= k < |stored[p.table.name]| ::
                ProjectRow(p, stored[p.table.name][k], events[p.table.name]).Err?
  {
    if !target {
      return Ok(stored[p.table.name]);
    }
    r := ProjectTable(p, stored[p.table.name], events[p.table.name]);
    if r.Ok? {
      forall k | 0 <= k < |r.value| ensures r.value[k].Keys == p.Columns() {
        ProjectedColumns(p, stored[p.table.name][k], events[p.table.name]);
      }
    }
  }

  /** The table can enter the manifest: on the target side every parent has its two event rows, and no value, stored
      or referenced, is of an unsupported type. */
  predicate Manifestable(p: Parent, stored: Database, events: EventRows, target: bool)
    requires TableReadable(p, stored, events, target)
  {
    forall k | 0 <= k < |stored[p.table.name]| ::
      if target then
        var row := ProjectRow(p, stored[p.table.name][k], events[p.table.name]);
        row.Ok? && RowFits(p.table.columns, row.value)
      else RowFits(p.table.columns, stored[p.table.name][k])
  }

  lemma ManifestableRows(p: Parent, stored: Database, events: EventRows, target: bool, rows: seq<DbRow>)
    requires TableReadable(p, stored, events, target) && Projected(p, stored, events, target, rows)
    ensures Manifestable(p, stored, events, target) <==> forall row <- rows :: RowFits(p.table.columns, row)
  {
    hide ProjectRow, RowFits;
    assert forall k | 0 <= k < |rows| :: rows[k] in rows;
  }

  /** `_generic_source_preservation_manifest`: every table in its source shape, on either side of the migration;
      refused exactly when a table cannot enter it. */
  method BuildGenericManifest(sha: Hash, schemaName: string, revision: string, parents: seq<Parent>, stored: Database,
                              events: EventRows, target: bool)
    returns (r: Result<(Payload, string), string>, source: Database)
    requires Readable(parents, stored, events, target)
    ensures r.Ok? <==> forall i | 0 <= i < |parents| :: Manifestable(parents[i], stored, events, target)
    ensures r.Ok? ==>
              && Fits(SchemaOf(parents), source)
              && (forall i | 0 <= i < |parents| ::
                    Projected(parents[i], stored, events, target, source[parents[i].table.name]))
              && r.value.0 == ManifestOf(schemaName, revision, EntriesOf(sha, SchemaOf(parents), source))
              && r.value.1 == sha(r.value.0)
  {
    source := map[];
    hide RowFits, ProjectRow;
    for i := 0 to |parents|
      invariant forall k | 0 <= k < i ::
                  && parents[k].table.name in source.Keys
                  && Projected(parents[k], stored, events, target, source[parents[k].table.name])
                  && forall row <- source[parents[k].table.name] :: row.Keys == parents[k].Columns()
    {
      var rows := ReadTable(parents[i], stored, events, target);
      if rows.Err? {
        assert !Manifestable(parents[i], stored, events, target);
        return Err(rows.error), source;
      }
      source := source[parents[i].table.name := rows.value];
    }
    forall i | 0 <= i < |parents|
      ensures Manifestable(parents[i], stored, events, target) <==> TableFits(SchemaOf(parents)[i], source)
    {
      ManifestableRows(parents[i], stored, events, target, source[parents[i].table.name]);
    }
    hide Projected, Manifestable, TableFits;
    r := BuildManifest(sha, schemaName, revision, SchemaOf(parents), source);
  }

  /** A database and its migrated form, table by table. */
  ghost predicate MigratedDatabase(parents: seq<Parent>, source: Database, stored: Database, events: EventRows,
                                   readBack: Database)
    requires Readable(parents, source, events, false) && Readable(parents, stored, events, true)
  {
    forall i | 0 <= i < |parents| :: MigratedTable(parents[i], source, stored, events, readBack)
  }

  ghost predicate MigratedTable(p: Parent, source: Database, stored: Database, events: EventRows, readBack: Database)
    requires TableReadable(p, source, events, false) && TableReadable(p, stored, events, true)
  {
    && p.table.name in readBack.Keys
    && Keyed(p, source[p.table.name])
    && Migrated(p, source[p.table.name], stored[p.table.name], events[p.table.name], readBack[p.table.name])
  }

  /** The digest survives the migration: the manifest of the migrated database, its rows and event rows read in
      any order, has the digest of the source database. */
  lemma MigrationKeepsDigest(sha: Hash, schemaName: string, revision: string, parents: seq<Parent>, source: Database,
                             stored: Database, events: EventRows, readBack: Database, projected: Database)
    requires Injective(sha)
    requires Readable(parents, source, events, false) && Readable(parents, stored, events, true)
    requires MigratedDatabase(parents, source, stored, events, readBack)
    requires Fits(SchemaOf(parents), source) && Fits(SchemaOf(parents), projected)
    requires forall i | 0 <= i < |parents| ::
               Projected(parents[i], stored, events, true, projected[parents[i].table.name])
    ensures sha(ManifestOf(schemaName, revision, EntriesOf(sha, SchemaOf(parents), source)))
            == sha(ManifestOf(schemaName, revision, EntriesOf(sha, SchemaOf(parents), projected)))
  {
    var schema := SchemaOf(parents);
    forall i | 0 <= i < |schema| ensures multiset(TableRows(schema[i], source)) == multiset(TableRows(schema[i], projected)) {
      var p := parents[i];
      assert MigratedTable(p, source, stored, events, readBack);
      ProjectedIsReadBack(p, source, stored, events, readBack, projected[p.table.name]);
      assert TableFits(schema[i], source) && TableFits(schema[i], projected);
      ReorderedTable(p.table, source, projected);
    }
    DigestExact(sha, schemaName, revision, schema, source, projected);
  }

  lemma ProjectedIsReadBack(p: Parent, source: Database, stored: Database, events: EventRows, readBack: Database,
                            rows: seq<DbRow>)
    requires TableReadable(p, source, events, false) && TableReadable(p, stored, events, true)
    requires MigratedTable(p, source, stored, events, readBack)
    requires Projected(p, stored, events, true, rows)
    ensures multiset(rows) == multiset(source[p.table.name])
  {
    TableRoundTrip(p, source[p.table.name], stored[p.table.name], events[p.table.name], readBack[p.table.name]);
    hide ProjectRow;
    assert rows == readBack[p.table.name];
  }
}
