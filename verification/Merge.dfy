/** Loading the tables a Seal selects: oldest run first, overwriting in place. */
module Merge {
  import opened Common
  import opened Domain
  import opened Rows
  import opened Seals

  datatype MergedRows = MergedRows(
    directory: map<StreamPath, DirectoryEntry>,
    ledger: map<StreamUid, StreamRecord>,
    residentBytes: nat)

  const NO_ROWS := MergedRows(map[], map[], 0)

  /** The checked resident account; `None` is the contradiction of the bound. */
  function AddResidentBytes(current: nat, additional: nat): (total: Option<nat>)
    ensures total.Some? <==> current + additional <= PARTITION_RESIDENT_LOGICAL_BYTES_MAX
    ensures total.Some? ==> total.value == current + additional
  {
    if current + additional > U64_MAX || current + additional > PARTITION_RESIDENT_LOGICAL_BYTES_MAX
    then None else Some(current + additional)
  }

  function MergeDirectoryRow(merged: MergedRows, row: (StreamPath, DirectoryEntry)): Option<MergedRows> {
    var account := if row.0 in merged.directory then Some(merged.residentBytes)
                   else AddResidentBytes(merged.residentBytes, DIRECTORY_ROW_LOGICAL_BYTES_MAX);
    if account.None? then None
    else Some(merged.(directory := merged.directory[row.0 := row.1], residentBytes := account.value))
  }

  /** The source panics on an account below one record; no merge gets there. */
  function MergeLedgerRow(merged: MergedRows, row: (StreamUid, LedgerCell)): Option<MergedRows> {
    match row.1
    case Value(record) =>
      var account := if row.0 in merged.ledger then Some(merged.residentBytes)
                     else AddResidentBytes(merged.residentBytes, LEDGER_VALUE_ROW_LOGICAL_BYTES_MAX);
      if account.None? then None
      else Some(merged.(ledger := merged.ledger[row.0 := record], residentBytes := account.value))
    case Delete =>
      if row.0 !in merged.ledger then Some(merged)
      else if merged.residentBytes < LEDGER_VALUE_ROW_LOGICAL_BYTES_MAX then None
      else Some(merged.(ledger := merged.ledger - {row.0},
                        residentBytes := merged.residentBytes - LEDGER_VALUE_ROW_LOGICAL_BYTES_MAX))
  }

  function MergeDirectoryRows(merged: MergedRows, rows: seq<(StreamPath, DirectoryEntry)>): Option<MergedRows> {
    if rows == [] then Some(merged)
    else
      var before := MergeDirectoryRows(merged, rows[..|rows| - 1]);
      if before.None? then None else MergeDirectoryRow(before.value, rows[|rows| - 1])
  }

  function MergeLedgerRows(merged: MergedRows, rows: seq<(StreamUid, LedgerCell)>): Option<MergedRows> {
    if rows == [] then Some(merged)
    else
      var before := MergeLedgerRows(merged, rows[..|rows| - 1]);
      if before.None? then None else MergeLedgerRow(before.value, rows[|rows| - 1])
  }

  datatype PlannedTable = PlannedTable(table: TableRef, startsRun: bool)

  datatype Load = Load(merged: MergedRows, previousDirectory: Option<StreamPath>, previousLedger: Option<StreamUid>)

  const NOTHING_LOADED := Load(NO_ROWS, None, None)

  /** What a checked decode guarantees of a table: nonempty, in key order. */
  predicate DecodedOk(content: DecodedTable) {
    match content
    case DirectoryTable(rows) => rows != [] && PathsAscend(rows)
    case LedgerTable(rows) => rows != [] && UidsAscend(rows)
  }

  /** One selected table merged over what is loaded; `None` is a contradiction. */
  function MergeTable(load: Load, source: PlannedTable): Option<Load>
    requires DecodedOk(source.table.content)
  {
    match source.table.content
    case DirectoryTable(rows) =>
      var previous := if source.startsRun then None else load.previousDirectory;
      if previous.Some? && !Less(previous.value, rows[0].0) then None
      else
        var merged := MergeDirectoryRows(load.merged, rows);
        if merged.None? then None
        else Some(load.(merged := merged.value, previousDirectory := Some(rows[|rows| - 1].0)))
    case LedgerTable(rows) =>
      var previous := if source.startsRun then None else load.previousLedger;
      if previous.Some? && rows[0].0 <= previous.value then None
      else
        var merged := MergeLedgerRows(load.merged, rows);
        if merged.None? then None
        else Some(load.(merged := merged.value, previousLedger := Some(rows[|rows| - 1].0)))
  }

  predicate SourcesOk(sources: seq<PlannedTable>) {
    forall i :: 0 <= i < |sources| ==> DecodedOk(sources[i].table.content)
  }

  function LoadTables(load: Load, sources: seq<PlannedTable>): Option<Load>
    requires SourcesOk(sources)
    decreases |sources|
  {
    if sources == [] then Some(load)
    else
      var next := MergeTable(load, sources[0]);
      if next.None? then None else LoadTables(next.value, sources[1..])
  }

  function TailSources(tables: seq<TableRef>): seq<PlannedTable> {
    if tables == [] then [] else [PlannedTable(tables[0], false)] + TailSources(tables[1..])
  }

  function RunSources(run: SortedRun): seq<PlannedTable> {
    if run.tables == [] then [] else [PlannedTable(run.tables[0], true)] + TailSources(run.tables[1..])
  }

  /** Oldest run first: the manifest lists runs from newest to oldest. */
  function TreeSources(runs: seq<SortedRun>): seq<PlannedTable> {
    if runs == [] then [] else TreeSources(runs[1..]) + RunSources(runs[0])
  }

  function SealSources(seal: Seal): seq<PlannedTable> {
    TreeSources(seal.directory.runs) + TreeSources(seal.ledger.runs)
  }

  function TotalBytes(sources: seq<PlannedTable>): nat {
    if sources == [] then 0 else sources[0].table.objectBytes + TotalBytes(sources[1..])
  }

  /** The sources of a bootstrap, refused beyond the aggregate bounds. */
  function PlanBootstrapSources(seal: Seal): Option<seq<PlannedTable>> {
    var sources := SealSources(seal);
    if |sources| > PARTITION_BOOTSTRAP_OBJECTS_MAX || TotalBytes(sources) > PARTITION_BOOTSTRAP_BYTES_MAX
    then None else Some(sources)
  }

  // ---------------------------------------------------- the resident account

  predicate Accounted(merged: MergedRows) {
    merged.residentBytes ==
      DIRECTORY_ROW_LOGICAL_BYTES_MAX * |merged.directory| + LEDGER_VALUE_ROW_LOGICAL_BYTES_MAX * |merged.ledger|
  }

  lemma SizeAfterWrite<K, V>(m: map<K, V>, key: K, value: V)
    ensures |m[key := value]| == |m| + (if key in m then 0 else 1)
  {
    assert m[key := value].Keys == m.Keys + {key};
    assert |m[key := value].Keys| == |m[key := value]| && |m.Keys| == |m|;
    if key in m {
      assert m.Keys + {key} == m.Keys;
    }
  }

  lemma SizeAfterRemove<K, V>(m: map<K, V>, key: K)
    ensures |m - {key}| == |m| - (if key in m then 1 else 0)
  {
    assert (m - {key}).Keys == m.Keys - {key};
    assert |(m - {key}).Keys| == |m - {key}| && |m.Keys| == |m|;
    if key !in m {
      assert m.Keys - {key} == m.Keys;
    }
  }

  lemma DirectoryRowAccounted(merged: MergedRows, row: (StreamPath, DirectoryEntry))
    requires Accounted(merged)
    ensures MergeDirectoryRow(merged, row).Some? ==>
      && Accounted(MergeDirectoryRow(merged, row).value)
      && MergeDirectoryRow(merged, row).value.directory == merged.directory[row.0 := row.1]
      && MergeDirectoryRow(merged, row).value.ledger == merged.ledger
  {
    SizeAfterWrite(merged.directory, row.0, row.1);
  }

  /** A deleted record is always accounted for, so the subtraction is exact. */
  lemma LedgerRowAccounted(merged: MergedRows, row: (StreamUid, LedgerCell))
    requires Accounted(merged)
    ensures MergeLedgerRow(merged, row).Some? ==> Accounted(MergeLedgerRow(merged, row).value)
    ensures row.1.Delete? ==> MergeLedgerRow(merged, row).Some?
  {
    if row.1.Value? {
      SizeAfterWrite(merged.ledger, row.0, row.1.record);
    } else {
      SizeAfterRemove(merged.ledger, row.0);
    }
  }

  // ------------------------------------------------------------- newest wins

  lemma WriteOver<K, V>(m: map<K, V>, rows: map<K, V>, key: K, value: V)
    ensures (m + rows)[key := value] == m + rows[key := value]
  {
  }

  lemma {:induction false} DirectoryRowsMerge(merged: MergedRows, rows: seq<(StreamPath, DirectoryEntry)>)
    requires Accounted(merged) && MergeDirectoryRows(merged, rows).Some?
    ensures var after := MergeDirectoryRows(merged, rows).value;
      after.directory == merged.directory + RowsMap(rows) && after.ledger == merged.ledger && Accounted(after)
  {
    hide Accounted, MergeDirectoryRow;
    if rows == [] {
      assert merged.directory + map[] == merged.directory;
    } else {
      var front, last := rows[..|rows| - 1], rows[|rows| - 1];
      var before := MergeDirectoryRows(merged, front).value;
      DirectoryRowsMerge(merged, front);
      DirectoryRowAccounted(before, last);
      WriteOver(merged.directory, RowsMap(front), last.0, last.1);
    }
  }

  lemma OverlayOne(ledger: map<StreamUid, StreamRecord>, cells: map<StreamUid, LedgerCell>,
                   row: (StreamUid, LedgerCell))
    ensures Overlay(ledger, cells[row.0 := row.1]) ==
      match row.1
      case Value(record) => Overlay(ledger, cells)[row.0 := record]
      case Delete => Overlay(ledger, cells) - {row.0}
  {
  }

  lemma LedgerRowMerges(merged: MergedRows, row: (StreamUid, LedgerCell))
    requires MergeLedgerRow(merged, row).Some?
    ensures MergeLedgerRow(merged, row).value.directory == merged.directory
    ensures MergeLedgerRow(merged, row).value.ledger ==
      match row.1
      case Value(record) => merged.ledger[row.0 := record]
      case Delete => merged.ledger - {row.0}
  {
    if row.1.Delete? && row.0 !in merged.ledger {
      assert merged.ledger - {row.0} == merged.ledger;
    }
  }

  lemma {:induction false} LedgerRowsMerge(merged: MergedRows, rows: seq<(StreamUid, LedgerCell)>)
    requires Accounted(merged) && MergeLedgerRows(merged, rows).Some?
    ensures var after := MergeLedgerRows(merged, rows).value;
      after.ledger == Overlay(merged.ledger, RowsMap(rows)) && after.directory == merged.directory && Accounted(after)
  {
    hide Overlay, MergeLedgerRow, Accounted;
    if rows == [] {
      OverlayNothing(merged.ledger);
    } else {
      var front, last := rows[..|rows| - 1], rows[|rows| - 1];
      var before := MergeLedgerRows(merged, front).value;
      LedgerRowsMerge(merged, front);
      LedgerRowAccounted(before, last);
      LedgerRowMerges(before, last);
      OverlayOne(merged.ledger, RowsMap(front), last);
    }
  }

  lemma OverlayNothing(ledger: map<StreamUid, StreamRecord>)
    ensures Overlay(ledger, map[]) == ledger
  {
  }

  lemma OverlayTwice(ledger: map<StreamUid, StreamRecord>, a: map<StreamUid, LedgerCell>, b: map<StreamUid, LedgerCell>)
    ensures Overlay(Overlay(ledger, a), b) == Overlay(ledger, a + b)
  {
  }

  function DirectoryRowsOf(content: DecodedTable): seq<(StreamPath, DirectoryEntry)> {
    if content.DirectoryTable? then content.directoryRows else []
  }

  function LedgerRowsOf(content: DecodedTable): seq<(StreamUid, LedgerCell)> {
    if content.LedgerTable? then content.ledgerRows else []
  }

  function AllDirectoryRows(sources: seq<PlannedTable>): seq<(StreamPath, DirectoryEntry)> {
    if sources == [] then [] else DirectoryRowsOf(sources[0].table.content) + AllDirectoryRows(sources[1..])
  }

  function AllLedgerRows(sources: seq<PlannedTable>): seq<(StreamUid, LedgerCell)> {
    if sources == [] then [] else LedgerRowsOf(sources[0].table.content) + AllLedgerRows(sources[1..])
  }

  lemma TableMerges(load: Load, source: PlannedTable)
    requires DecodedOk(source.table.content)
    requires Accounted(load.merged) && MergeTable(load, source).Some?
    ensures var after := MergeTable(load, source).value.merged;
      && Accounted(after)
      && after.directory == load.merged.directory + RowsMap(DirectoryRowsOf(source.table.content))
      && after.ledger == Overlay(load.merged.ledger, RowsMap(LedgerRowsOf(source.table.content)))
  {
    hide Accounted, Overlay, RowsMap, MergeDirectoryRows, MergeLedgerRows;
    match source.table.content
    case DirectoryTable(rows) =>
      DirectoryRowsMerge(load.merged, rows);
      OverlayNothing(load.merged.ledger);
      NoRows<StreamUid, LedgerCell>();
    case LedgerTable(rows) =>
      LedgerRowsMerge(load.merged, rows);
      NoRows<StreamPath, DirectoryEntry>();
      assert load.merged.directory + map[] == load.merged.directory;
  }

  lemma NoRows<K, V>()
    ensures RowsMap<K, V>([]) == map[]
  {
  }

  /** A load that succeeds has written exactly the rows of its tables in order,
      and the account is 525 bytes a Directory row plus 1035 a Ledger row. */
  lemma {:induction false} LoadWrites(load: Load, sources: seq<PlannedTable>)
    requires SourcesOk(sources) && Accounted(load.merged) && LoadTables(load, sources).Some?
    ensures var after := LoadTables(load, sources).value.merged;
      && Accounted(after)
      && after.directory == load.merged.directory + RowsMap(AllDirectoryRows(sources))
      && after.ledger == Overlay(load.merged.ledger, RowsMap(AllLedgerRows(sources)))
    decreases |sources|
  {
    hide Accounted, Overlay, RowsMap, MergeTable, DecodedOk;
    if sources == [] {
      OverlayNothing(load.merged.ledger);
      NoRows<StreamUid, LedgerCell>();
      NoRows<StreamPath, DirectoryEntry>();
      assert load.merged.directory + map[] == load.merged.directory;
    } else {
      var next := MergeTable(load, sources[0]).value;
      TableMerges(load, sources[0]);
      LoadWrites(next, sources[1..]);
      var content := sources[0].table.content;
      RowsMapConcat(DirectoryRowsOf(content), AllDirectoryRows(sources[1..]));
      RowsMapConcat(LedgerRowsOf(content), AllLedgerRows(sources[1..]));
      OverlayTwice(load.merged.ledger, RowsMap(LedgerRowsOf(content)), RowsMap(AllLedgerRows(sources[1..])));
      assert (load.merged.directory + RowsMap(DirectoryRowsOf(content))) + RowsMap(AllDirectoryRows(sources[1..]))
          == load.merged.directory + (RowsMap(DirectoryRowsOf(content)) + RowsMap(AllDirectoryRows(sources[1..])));
    }
  }

  lemma {:induction false} AllRowsConcat(a: seq<PlannedTable>, b: seq<PlannedTable>)
    ensures AllDirectoryRows(a + b) == AllDirectoryRows(a) + AllDirectoryRows(b)
    ensures AllLedgerRows(a + b) == AllLedgerRows(a) + AllLedgerRows(b)
    decreases |a|
  {
    if a == [] {
      assert a + b == b;
    } else {
      assert (a + b)[1..] == a[1..] + b;
      AllRowsConcat(a[1..], b);
    }
  }

  /** The cell of the first run, in manifest order, that holds the key. */
  function NewestEntry(runs: seq<SortedRun>, path: StreamPath): Option<DirectoryEntry> {
    if runs == [] then None
    else
      var rows := RowsMap(AllDirectoryRows(RunSources(runs[0])));
      if path in rows then Some(rows[path]) else NewestEntry(runs[1..], path)
  }

  function NewestCell(runs: seq<SortedRun>, uid: StreamUid): Option<LedgerCell> {
    if runs == [] then None
    else
      var rows := RowsMap(AllLedgerRows(RunSources(runs[0])));
      if uid in rows then Some(rows[uid]) else NewestCell(runs[1..], uid)
  }

  function Lookup<K, V>(m: map<K, V>, key: K): Option<V> { if key in m then Some(m[key]) else None }

  lemma {:induction false} NewestWins(runs: seq<SortedRun>, path: StreamPath, uid: StreamUid)
    ensures Lookup(RowsMap(AllDirectoryRows(TreeSources(runs))), path) == NewestEntry(runs, path)
    ensures Lookup(RowsMap(AllLedgerRows(TreeSources(runs))), uid) == NewestCell(runs, uid)
  {
    if runs == [] {
    } else {
      NewestWins(runs[1..], path, uid);
      hide RowsMap, RunSources;
      AllRowsConcat(TreeSources(runs[1..]), RunSources(runs[0]));
      RowsMapConcat(AllDirectoryRows(TreeSources(runs[1..])), AllDirectoryRows(RunSources(runs[0])));
      RowsMapConcat(AllLedgerRows(TreeSources(runs[1..])), AllLedgerRows(RunSources(runs[0])));
    }
  }
}
