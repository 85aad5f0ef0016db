/** What a Seal's tables hold, and how a prepared checkpoint carries it on. */
module Checkpoints {
  import opened Common
  import opened Domain
  import opened Forests
  import opened Logs
  import opened Rows
  import opened Seals
  import opened Merge

  // ----------------------------------------------------------- sorted runs

  function FirstPath(content: DecodedTable): StreamPath
    requires content.DirectoryTable? && content.directoryRows != []
  {
    content.directoryRows[0].0
  }

  function LastPath(content: DecodedTable): StreamPath
    requires content.DirectoryTable? && content.directoryRows != []
  {
    content.directoryRows[|content.directoryRows| - 1].0
  }

  /** Directory tables whose rows ascend, across table boundaries too. */
  predicate DirectoryRun(tables: seq<TableRef>) {
    tables == [] ||
    (&& tables[0].content.DirectoryTable? && DecodedOk(tables[0].content)
     && DirectoryRun(tables[1..])
     && (|tables| > 1 ==> Less(LastPath(tables[0].content), FirstPath(tables[1..][0].content))))
  }

  function FirstUid(content: DecodedTable): StreamUid
    requires content.LedgerTable? && content.ledgerRows != []
  {
    content.ledgerRows[0].0
  }

  function LastUid(content: DecodedTable): StreamUid
    requires content.LedgerTable? && content.ledgerRows != []
  {
    content.ledgerRows[|content.ledgerRows| - 1].0
  }

  predicate LedgerRun(tables: seq<TableRef>) {
    tables == [] ||
    (&& tables[0].content.LedgerTable? && DecodedOk(tables[0].content)
     && LedgerRun(tables[1..])
     && (|tables| > 1 ==> LastUid(tables[0].content) < FirstUid(tables[1..][0].content)))
  }

  predicate DirectoryRuns(runs: seq<SortedRun>) { forall i :: 0 <= i < |runs| ==> DirectoryRun(runs[i].tables) }

  predicate LedgerRuns(runs: seq<SortedRun>) { forall i :: 0 <= i < |runs| ==> LedgerRun(runs[i].tables) }

  // -------------------------------------------------- a load that must succeed

  /** A bounded universe of keys that every table stays inside. */
  datatype Universe = Universe(paths: set<StreamPath>, uids: set<StreamUid>)

  predicate Affordable(u: Universe) {
    DIRECTORY_ROW_LOGICAL_BYTES_MAX * |u.paths| + LEDGER_VALUE_ROW_LOGICAL_BYTES_MAX * |u.uids|
      <= PARTITION_RESIDENT_LOGICAL_BYTES_MAX
  }

  predicate Inside(merged: MergedRows, u: Universe) {
    Accounted(merged) && merged.directory.Keys <= u.paths && merged.ledger.Keys <= u.uids
  }

  predicate RowsInside(content: DecodedTable, u: Universe) {
    match content
    case DirectoryTable(rows) => forall i :: 0 <= i < |rows| ==> rows[i].0 in u.paths
    case LedgerTable(rows) => forall i :: 0 <= i < |rows| ==> rows[i].0 in u.uids
  }

  predicate AllInside(sources: seq<PlannedTable>, u: Universe) {
    forall i :: 0 <= i < |sources| ==> RowsInside(sources[i].table.content, u)
  }

  lemma DirectoryRowFits(merged: MergedRows, row: (StreamPath, DirectoryEntry), u: Universe)
    requires Inside(merged, u) && Affordable(u) && row.0 in u.paths
    ensures MergeDirectoryRow(merged, row).Some? && Inside(MergeDirectoryRow(merged, row).value, u)
  {
    var written := merged.directory[row.0 := row.1];
    SizeAfterWrite(merged.directory, row.0, row.1);
    assert written.Keys == merged.directory.Keys + {row.0};
    SubsetSize(written.Keys, u.paths);
    SubsetSize(merged.ledger.Keys, u.uids);
    assert |written.Keys| == |written| && |merged.ledger.Keys| == |merged.ledger|;
    if row.0 !in merged.directory {
      assert merged.residentBytes + DIRECTORY_ROW_LOGICAL_BYTES_MAX <= PARTITION_RESIDENT_LOGICAL_BYTES_MAX;
    }
  }

  lemma LedgerRowFits(merged: MergedRows, row: (StreamUid, LedgerCell), u: Universe)
    requires Inside(merged, u) && Affordable(u) && row.0 in u.uids
    ensures MergeLedgerRow(merged, row).Some? && Inside(MergeLedgerRow(merged, row).value, u)
  {
    LedgerRowAccounted(merged, row);
    if row.1.Value? {
      var written := merged.ledger[row.0 := row.1.record];
      SizeAfterWrite(merged.ledger, row.0, row.1.record);
      assert written.Keys == merged.ledger.Keys + {row.0};
      SubsetSize(written.Keys, u.uids);
      SubsetSize(merged.directory.Keys, u.paths);
      assert |written.Keys| == |written| && |merged.directory.Keys| == |merged.directory|;
      if row.0 !in merged.ledger {
        assert merged.residentBytes + LEDGER_VALUE_ROW_LOGICAL_BYTES_MAX <= PARTITION_RESIDENT_LOGICAL_BYTES_MAX;
      }
    }
  }

  lemma {:induction false} DirectoryRowsFit(merged: MergedRows, rows: seq<(StreamPath, DirectoryEntry)>, u: Universe)
    requires Inside(merged, u) && Affordable(u) && RowsInside(DirectoryTable(rows), u)
    ensures MergeDirectoryRows(merged, rows).Some? && Inside(MergeDirectoryRows(merged, rows).value, u)
  {
    hide Inside, Affordable, MergeDirectoryRow;
    if rows != [] {
      DirectoryRowsFit(merged, rows[..|rows| - 1], u);
      DirectoryRowFits(MergeDirectoryRows(merged, rows[..|rows| - 1]).value, rows[|rows| - 1], u);
    }
  }

  lemma {:induction false} LedgerRowsFit(merged: MergedRows, rows: seq<(StreamUid, LedgerCell)>, u: Universe)
    requires Inside(merged, u) && Affordable(u) && RowsInside(LedgerTable(rows), u)
    ensures MergeLedgerRows(merged, rows).Some? && Inside(MergeLedgerRows(merged, rows).value, u)
  {
    hide Inside, Affordable, MergeLedgerRow;
    if rows != [] {
      LedgerRowsFit(merged, rows[..|rows| - 1], u);
      LedgerRowFits(MergeLedgerRows(merged, rows[..|rows| - 1]).value, rows[|rows| - 1], u);
    }
  }

  lemma {:induction false} LoadTablesConcat(load: Load, a: seq<PlannedTable>, b: seq<PlannedTable>)
    requires SourcesOk(a) && SourcesOk(b)
    ensures SourcesOk(a + b)
    ensures LoadTables(load, a + b) ==
      match LoadTables(load, a)
      case None => None
      case Some(mid) => LoadTables(mid, b)
    decreases |a|
  {
    hide MergeTable, DecodedOk;
    if a == [] {
      assert a + b == b;
    } else {
      assert (a + b)[1..] == a[1..] + b;
      var next := MergeTable(load, a[0]);
      if next.Some? { LoadTablesConcat(next.value, a[1..], b); }
    }
  }

  /** What one table of a run needs of the load before it. */
  predicate Follows(load: Load, tables: seq<TableRef>, startsRun: bool)
    requires DirectoryRun(tables) || LedgerRun(tables)
  {
    tables == [] || startsRun ||
    match tables[0].content
    case DirectoryTable(rows) => load.previousDirectory.Some? ==> Less(load.previousDirectory.value, rows[0].0)
    case LedgerTable(rows) => load.previousLedger.Some? ==> load.previousLedger.value < rows[0].0
  }

  lemma TableFits(load: Load, tables: seq<TableRef>, startsRun: bool, u: Universe)
    requires tables != [] && (DirectoryRun(tables) || LedgerRun(tables)) && Follows(load, tables, startsRun)
    requires Inside(load.merged, u) && Affordable(u) && RowsInside(tables[0].content, u)
    ensures DecodedOk(tables[0].content)
    ensures MergeTable(load, PlannedTable(tables[0], startsRun)).Some?
    ensures Inside(MergeTable(load, PlannedTable(tables[0], startsRun)).value.merged, u)
    ensures DirectoryRun(tables[1..]) || LedgerRun(tables[1..])
    ensures Follows(MergeTable(load, PlannedTable(tables[0], startsRun)).value, tables[1..], false)
  {
    hide Inside, Affordable, MergeDirectoryRows, MergeLedgerRows, RowsInside;
    match tables[0].content
    case DirectoryTable(rows) => DirectoryRowsFit(load.merged, rows, u);
    case LedgerTable(rows) => LedgerRowsFit(load.merged, rows, u);
  }

  lemma {:induction false} TailFits(load: Load, tables: seq<TableRef>, u: Universe)
    requires (DirectoryRun(tables) || LedgerRun(tables)) && Follows(load, tables, false)
    requires Inside(load.merged, u) && Affordable(u) && AllInside(TailSources(tables), u)
    ensures SourcesOk(TailSources(tables))
    ensures LoadTables(load, TailSources(tables)).Some?
    ensures Inside(LoadTables(load, TailSources(tables)).value.merged, u)
    decreases |tables|
  {
    hide Inside, Affordable, MergeTable, RowsInside, Follows;
    if tables != [] {
      var sources := TailSources(tables);
      assert sources[0] == PlannedTable(tables[0], false) && sources[1..] == TailSources(tables[1..]);
      TableFits(load, tables, false, u);
      assert forall i :: 0 <= i < |sources| - 1 ==> sources[1..][i] == sources[i + 1];
      TailFits(MergeTable(load, sources[0]).value, tables[1..], u);
    }
  }

  lemma RunFits(load: Load, run: SortedRun, u: Universe)
    requires DirectoryRun(run.tables) || LedgerRun(run.tables)
    requires Inside(load.merged, u) && Affordable(u) && AllInside(RunSources(run), u)
    ensures SourcesOk(RunSources(run))
    ensures LoadTables(load, RunSources(run)).Some?
    ensures Inside(LoadTables(load, RunSources(run)).value.merged, u)
  {
    hide Inside, Affordable, MergeTable, RowsInside;
    if run.tables != [] {
      var sources := RunSources(run);
      assert sources[0] == PlannedTable(run.tables[0], true) && sources[1..] == TailSources(run.tables[1..]);
      TableFits(load, run.tables, true, u);
      assert forall i :: 0 <= i < |sources| - 1 ==> sources[1..][i] == sources[i + 1];
      TailFits(MergeTable(load, sources[0]).value, run.tables[1..], u);
    }
  }

  /** Sorted runs over an affordable universe of keys always load. */
  lemma {:induction false} TreeFits(load: Load, runs: seq<SortedRun>, u: Universe)
    requires DirectoryRuns(runs) || LedgerRuns(runs)
    requires Inside(load.merged, u) && Affordable(u) && AllInside(TreeSources(runs), u)
    ensures SourcesOk(TreeSources(runs))
    ensures LoadTables(load, TreeSources(runs)).Some?
    ensures Inside(LoadTables(load, TreeSources(runs)).value.merged, u)
    decreases |runs|
  {
    hide Inside, Affordable, MergeTable, RowsInside, RunSources, DirectoryRun, LedgerRun;
    if runs != [] {
      var older, newest := TreeSources(runs[1..]), RunSources(runs[0]);
      var sources := TreeSources(runs);
      assert forall i :: 0 <= i < |older| ==> older[i] == sources[i];
      assert forall i :: 0 <= i < |newest| ==> newest[i] == sources[|older| + i];
      TreeFits(load, runs[1..], u);
      RunFits(LoadTables(load, older).value, runs[0], u);
      LoadTablesConcat(load, older, newest);
    }
  }

  // --------------------------------------------------------- what a Seal holds

  function TreeEntries(tree: TreeVersion): map<StreamPath, DirectoryEntry> {
    RowsMap(AllDirectoryRows(TreeSources(tree.runs)))
  }

  function TreeCells(tree: TreeVersion): map<StreamUid, LedgerCell> {
    RowsMap(AllLedgerRows(TreeSources(tree.runs)))
  }

  /** The Seal's tables are sorted, inside the bootstrap bounds, and newest-wins
      over them is exactly this complete forest. */
  ghost predicate SealHolds(seal: Seal, forest: Forest) {
    && DirectoryRuns(seal.directory.runs) && LedgerRuns(seal.ledger.runs)
    && PlanBootstrapSources(seal).Some?
    && Complete(forest)
    && TreeEntries(seal.directory) == forest.directory
    && Overlay(map[], TreeCells(seal.ledger)) == forest.ledger
    && UidsWithin(TreeCells(seal.ledger).Keys, |forest.directory|)
  }

  predicate UidsWithin(uids: set<StreamUid>, n: nat) { forall uid :: uid in uids ==> uid <= n }

  lemma GenesisHoldsNothing(partition: nat)
    ensures SealHolds(GenesisSeal(partition), EMPTY)
  {
    assert TreeSources([]) == [];
    assert SealSources(GenesisSeal(partition)) == [];
    assert LiveUids(map[]) == {};
    OverlayNothing(map[]);
  }

  lemma {:induction false} RunRowsByKind(tables: seq<TableRef>)
    ensures DirectoryRun(tables) ==> AllLedgerRows(TailSources(tables)) == []
    ensures LedgerRun(tables) ==> AllDirectoryRows(TailSources(tables)) == []
  {
    if tables != [] {
      RunRowsByKind(tables[1..]);
      assert TailSources(tables)[1..] == TailSources(tables[1..]);
    }
  }

  lemma {:induction false} TreeRowsByKind(runs: seq<SortedRun>)
    ensures DirectoryRuns(runs) ==> AllLedgerRows(TreeSources(runs)) == []
    ensures LedgerRuns(runs) ==> AllDirectoryRows(TreeSources(runs)) == []
  {
    if runs != [] {
      TreeRowsByKind(runs[1..]);
      AllRowsConcat(TreeSources(runs[1..]), RunSources(runs[0]));
      var tables := runs[0].tables;
      if tables != [] {
        RunRowsByKind(tables[1..]);
        assert RunSources(runs[0])[1..] == TailSources(tables[1..]);
      }
    }
  }

  lemma {:induction false} SourceRowsAreRows(sources: seq<PlannedTable>, u: Universe)
    requires Keys(AllDirectoryRows(sources)) <= u.paths && Keys(AllLedgerRows(sources)) <= u.uids
    ensures AllInside(sources, u)
    decreases |sources|
  {
    if sources != [] {
      var content := sources[0].table.content;
      KeysConcat(DirectoryRowsOf(content), AllDirectoryRows(sources[1..]));
      KeysConcat(LedgerRowsOf(content), AllLedgerRows(sources[1..]));
      assert forall i :: 0 <= i < |DirectoryRowsOf(content)| ==>
        DirectoryRowsOf(content)[i].0 in Keys(DirectoryRowsOf(content));
      assert forall i :: 0 <= i < |LedgerRowsOf(content)| ==> LedgerRowsOf(content)[i].0 in Keys(LedgerRowsOf(content));
      SourceRowsAreRows(sources[1..], u);
      assert forall i :: 0 < i < |sources| ==> sources[i] == sources[1..][i - 1];
    }
  }

  lemma KeysConcat<K, V>(a: seq<(K, V)>, b: seq<(K, V)>)
    ensures Keys(a + b) == Keys(a) + Keys(b)
  {
    forall k | k in Keys(a) + Keys(b)
      ensures k in Keys(a + b)
    {
      if k in Keys(a) {
        var i :| 0 <= i < |a| && a[i].0 == k;
        assert (a + b)[i] == a[i];
      } else {
        var i :| 0 <= i < |b| && b[i].0 == k;
        assert (a + b)[|a| + i] == b[i];
      }
    }
  }

  /** The keys a Seal's tables mention, small enough to be resident. */
  lemma HoldsIsAffordable(seal: Seal, forest: Forest) returns (u: Universe)
    requires SealHolds(seal, forest)
    ensures u == Universe(forest.directory.Keys, TreeCells(seal.ledger).Keys)
    ensures Affordable(u)
    ensures AllInside(TreeSources(seal.directory.runs), u) && AllInside(TreeSources(seal.ledger.runs), u)
  {
    u := Universe(forest.directory.Keys, TreeCells(seal.ledger).Keys);
    assert |u.paths| == |forest.directory|;
    SubsetSize<nat>(u.uids, UpTo(|forest.directory|));
    RowsMapKeys(AllDirectoryRows(TreeSources(seal.directory.runs)));
    RowsMapKeys(AllLedgerRows(TreeSources(seal.ledger.runs)));
    TreeRowsByKind(seal.directory.runs);
    TreeRowsByKind(seal.ledger.runs);
    hide RowsMap, TreeSources, AllDirectoryRows, AllLedgerRows, Complete;
    SourceRowsAreRows(TreeSources(seal.directory.runs), u);
    SourceRowsAreRows(TreeSources(seal.ledger.runs), u);
  }

  lemma HoldsLoadsAtAll(seal: Seal, forest: Forest)
    requires SealHolds(seal, forest)
    ensures SourcesOk(SealSources(seal))
    ensures LoadTables(NOTHING_LOADED, SealSources(seal)).Some?
  {
    var u := HoldsIsAffordable(seal, forest);
    var directory, ledger := TreeSources(seal.directory.runs), TreeSources(seal.ledger.runs);
    hide *;
    assert DirectoryRuns(seal.directory.runs) && LedgerRuns(seal.ledger.runs) by { UnfoldHolds(seal, forest); }
    assert Inside(NOTHING_LOADED.merged, u) by { NothingIsInside(u); }
    TreeFits(NOTHING_LOADED, seal.directory.runs, u);
    TreeFits(LoadTables(NOTHING_LOADED, directory).value, seal.ledger.runs, u);
    LoadTablesConcat(NOTHING_LOADED, directory, ledger);
    assert SealSources(seal) == directory + ledger by { SourcesByTree(seal); }
  }

  lemma UnfoldHolds(seal: Seal, forest: Forest)
    requires SealHolds(seal, forest)
    ensures DirectoryRuns(seal.directory.runs) && LedgerRuns(seal.ledger.runs)
  {
  }

  lemma NothingIsInside(u: Universe)
    ensures Inside(NOTHING_LOADED.merged, u) && Accounted(NOTHING_LOADED.merged)
  {
  }

  lemma SourcesByTree(seal: Seal)
    ensures SealSources(seal) == TreeSources(seal.directory.runs) + TreeSources(seal.ledger.runs)
  {
  }

  /** Each store's rows come from its own tree. */
  lemma SealRows(seal: Seal)
    requires DirectoryRuns(seal.directory.runs) && LedgerRuns(seal.ledger.runs)
    ensures RowsMap(AllDirectoryRows(SealSources(seal))) == TreeEntries(seal.directory)
    ensures RowsMap(AllLedgerRows(SealSources(seal))) == TreeCells(seal.ledger)
  {
    var directory, ledger := TreeSources(seal.directory.runs), TreeSources(seal.ledger.runs);
    TreeRowsByKind(seal.directory.runs);
    TreeRowsByKind(seal.ledger.runs);
    AllRowsConcat(directory, ledger);
    hide TreeSources, RowsMap, AllDirectoryRows, AllLedgerRows, DirectoryRuns, LedgerRuns;
    assert AllDirectoryRows(directory) + [] == AllDirectoryRows(directory);
    assert [] + AllLedgerRows(ledger) == AllLedgerRows(ledger);
  }

  /** A Seal that holds a forest loads to exactly that forest. */
  lemma HoldsLoads(seal: Seal, forest: Forest)
    requires SealHolds(seal, forest)
    ensures SourcesOk(SealSources(seal))
    ensures LoadTables(NOTHING_LOADED, SealSources(seal)).Some?
    ensures var merged := LoadTables(NOTHING_LOADED, SealSources(seal)).value.merged;
      Forest(merged.directory, merged.ledger) == forest
  {
    HoldsLoadsAtAll(seal, forest);
    SealRows(seal);
    NothingIsInside(Universe({}, {}));
    hide SealSources, TreeEntries, TreeCells, RowsMap, Overlay, Complete, LoadTables, SourcesOk, Accounted,
      AllDirectoryRows, AllLedgerRows, DirectoryRuns, LedgerRuns, PlanBootstrapSources;
    LoadWrites(NOTHING_LOADED, SealSources(seal));
    assert map[] + TreeEntries(seal.directory) == TreeEntries(seal.directory);
  }

  /** A Delete cell and no cell at all both mean that there is no record. */
  function PresentRecord(cell: Option<LedgerCell>): Option<StreamRecord> {
    if cell.Some? && cell.value.Value? then Some(cell.value.record) else None
  }

  lemma LookupOverlay(cells: map<StreamUid, LedgerCell>, uid: StreamUid)
    ensures Lookup(Overlay(map[], cells), uid) == PresentRecord(Lookup(cells, uid))
  {
  }

  /** Tables of one kind only, each decoded. */
  predicate DirectoryTables(tables: seq<TableRef>) {
    forall i :: 0 <= i < |tables| ==> tables[i].content.DirectoryTable? && DecodedOk(tables[i].content)
  }

  predicate LedgerTables(tables: seq<TableRef>) {
    forall i :: 0 <= i < |tables| ==> tables[i].content.LedgerTable? && DecodedOk(tables[i].content)
  }

  predicate TypedTrees(seal: Seal) {
    && (forall i :: 0 <= i < |seal.directory.runs| ==> DirectoryTables(seal.directory.runs[i].tables))
    && (forall i :: 0 <= i < |seal.ledger.runs| ==> LedgerTables(seal.ledger.runs[i].tables))
  }

  lemma {:induction false} TailLoadsSorted(load: Load, tables: seq<TableRef>)
    requires DirectoryTables(tables) || LedgerTables(tables)
    requires SourcesOk(TailSources(tables)) && LoadTables(load, TailSources(tables)).Some?
    ensures DirectoryTables(tables) ==> DirectoryRun(tables)
    ensures LedgerTables(tables) ==> LedgerRun(tables)
    ensures tables != [] && DirectoryTables(tables) && load.previousDirectory.Some? ==>
      Less(load.previousDirectory.value, FirstPath(tables[0].content))
    ensures tables != [] && LedgerTables(tables) && load.previousLedger.Some? ==>
      load.previousLedger.value < FirstUid(tables[0].content)
    decreases |tables|
  {
    hide MergeDirectoryRows, MergeLedgerRows;
    if tables != [] {
      var sources := TailSources(tables);
      assert sources[0] == PlannedTable(tables[0], false) && sources[1..] == TailSources(tables[1..]);
      assert DirectoryTables(tables) ==> DirectoryTables(tables[1..]);
      assert LedgerTables(tables) ==> LedgerTables(tables[1..]);
      assert forall i :: 0 <= i < |sources| - 1 ==> sources[1..][i] == sources[i + 1];
      TailLoadsSorted(MergeTable(load, sources[0]).value, tables[1..]);
    }
  }

  lemma RunLoadsSorted(load: Load, run: SortedRun)
    requires DirectoryTables(run.tables) || LedgerTables(run.tables)
    requires SourcesOk(RunSources(run)) && LoadTables(load, RunSources(run)).Some?
    ensures DirectoryTables(run.tables) ==> DirectoryRun(run.tables)
    ensures LedgerTables(run.tables) ==> LedgerRun(run.tables)
  {
    hide MergeDirectoryRows, MergeLedgerRows;
    var tables := run.tables;
    if tables != [] {
      var sources := RunSources(run);
      assert sources[0] == PlannedTable(tables[0], true) && sources[1..] == TailSources(tables[1..]);
      assert DirectoryTables(tables) ==> DirectoryTables(tables[1..]);
      assert LedgerTables(tables) ==> LedgerTables(tables[1..]);
      assert forall i :: 0 <= i < |sources| - 1 ==> sources[1..][i] == sources[i + 1];
      TailLoadsSorted(MergeTable(load, sources[0]).value, tables[1..]);
    }
  }

  lemma {:induction false} TreeLoadsSorted(load: Load, runs: seq<SortedRun>, i: nat)
    requires i < |runs| && (DirectoryTables(runs[i].tables) || LedgerTables(runs[i].tables))
    requires SourcesOk(TreeSources(runs)) && LoadTables(load, TreeSources(runs)).Some?
    ensures DirectoryTables(runs[i].tables) ==> DirectoryRun(runs[i].tables)
    ensures LedgerTables(runs[i].tables) ==> LedgerRun(runs[i].tables)
    decreases |runs|
  {
    hide MergeTable, DirectoryTables, LedgerTables, DirectoryRun, LedgerRun, RunSources, DecodedOk;
    var older, newest := TreeSources(runs[1..]), RunSources(runs[0]);
    var sources := TreeSources(runs);
    assert forall k :: 0 <= k < |older| ==> older[k] == sources[k];
    assert forall k :: 0 <= k < |newest| ==> newest[k] == sources[|older| + k];
    LoadTablesConcat(load, older, newest);
    if i == 0 {
      RunLoadsSorted(LoadTables(load, older).value, runs[0]);
    } else {
      TreeLoadsSorted(load, runs[1..], i - 1);
    }
  }

  /** A load that succeeds proves the manifest: within every run the rows strictly
      ascend, across its tables too. */
  lemma LoadMeansSorted(seal: Seal)
    requires TypedTrees(seal)
    requires SourcesOk(SealSources(seal)) && LoadTables(NOTHING_LOADED, SealSources(seal)).Some?
    ensures DirectoryRuns(seal.directory.runs) && LedgerRuns(seal.ledger.runs)
  {
    hide LoadTables, DirectoryTables, LedgerTables, DirectoryRun, LedgerRun, DecodedOk, TreeSources;
    var directory, ledger := TreeSources(seal.directory.runs), TreeSources(seal.ledger.runs);
    var sources := SealSources(seal);
    assert forall k :: 0 <= k < |directory| ==> directory[k] == sources[k];
    assert forall k :: 0 <= k < |ledger| ==> ledger[k] == sources[|directory| + k];
    LoadTablesConcat(NOTHING_LOADED, directory, ledger);
    forall i | 0 <= i < |seal.directory.runs| ensures DirectoryRun(seal.directory.runs[i].tables) {
      TreeLoadsSorted(NOTHING_LOADED, seal.directory.runs, i);
    }
    forall i | 0 <= i < |seal.ledger.runs| ensures LedgerRun(seal.ledger.runs[i].tables) {
      TreeLoadsSorted(LoadTables(NOTHING_LOADED, directory).value, seal.ledger.runs, i);
    }
  }

  /** When a load of a typed Seal succeeds, every path has the entry of the
      first run in manifest order that mentions it, and every uid the record of
      the first run that mentions it, a Delete cell meaning absent. */
  lemma MergeIsNewestWins(seal: Seal, path: StreamPath, uid: StreamUid)
    requires TypedTrees(seal)
    requires SourcesOk(SealSources(seal)) && LoadTables(NOTHING_LOADED, SealSources(seal)).Some?
    ensures var merged := LoadTables(NOTHING_LOADED, SealSources(seal)).value.merged;
      && Lookup(merged.directory, path) == NewestEntry(seal.directory.runs, path)
      && Lookup(merged.ledger, uid) == PresentRecord(NewestCell(seal.ledger.runs, uid))
  {
    hide TypedTrees;
    LoadMeansSorted(seal);
    SealRows(seal);
    NothingIsInside(Universe({}, {}));
    NewestWins(seal.directory.runs, path, uid);
    NewestWins(seal.ledger.runs, path, uid);
    LookupOverlay(TreeCells(seal.ledger), uid);
    hide SealSources, RowsMap, Overlay, LoadTables, SourcesOk, Accounted, TreeSources, NewestEntry, NewestCell,
      AllDirectoryRows, AllLedgerRows, DirectoryRuns, LedgerRuns;
    LoadWrites(NOTHING_LOADED, SealSources(seal));
    assert map[] + TreeEntries(seal.directory) == TreeEntries(seal.directory);
  }

  // ---------------------------------------------------- prepared checkpoints

  /** One fresh run, if it has any table, on top of what is carried. */
  function ExtendTree(carried: TreeVersion, tables: seq<TableRef>): TreeVersion {
    if tables == [] then carried else TreeVersion([SortedRun(tables)] + carried.runs)
  }

  /** The rows cut into nonempty tables, in order. */
  predicate DirectoryChunks(tables: seq<TableRef>, rows: seq<(StreamPath, DirectoryEntry)>)
    decreases |tables|
  {
    if tables == [] then rows == []
    else
      && tables[0].content.DirectoryTable?
      && var first := tables[0].content.directoryRows;
         first != [] && first <= rows && DirectoryChunks(tables[1..], rows[|first|..])
  }

  predicate LedgerChunks(tables: seq<TableRef>, rows: seq<(StreamUid, LedgerCell)>)
    decreases |tables|
  {
    if tables == [] then rows == []
    else
      && tables[0].content.LedgerTable?
      && var first := tables[0].content.ledgerRows;
         first != [] && first <= rows && LedgerChunks(tables[1..], rows[|first|..])
  }

  predicate RunsFit(seal: Seal) { |seal.directory.runs| <= TREE_RUNS_MAX && |seal.ledger.runs| <= TREE_RUNS_MAX }

  /** Fresh identities as preparation mints them: born with the successor, under
      this attempt, numbered through the Directory tables and then the Ledger's. */
  predicate Minted(directory: seq<TableRef>, ledger: seq<TableRef>, generation: nat, attempt: AttemptId) {
    && (forall i :: 0 <= i < |directory| ==>
         directory[i].id == TableObjectId(generation, attempt, i, StoreKind.Directory))
    && (forall i :: 0 <= i < |ledger| ==>
         ledger[i].id == TableObjectId(generation, attempt, |directory| + i, StoreKind.Ledger))
  }

  /** The delta as one fresh run on top of the source's runs. */
  ghost predicate AppendsDelta(source: Seal, base: Forest, snapshot: Forest, successor: Seal,
                               cells: ForestDelta, directory: seq<TableRef>, ledger: seq<TableRef>) {
    && DirectoryChunks(directory, cells.directory) && LedgerChunks(ledger, cells.ledger)
    && IsDeltaSince(cells, snapshot, base)
    && successor.directory == ExtendTree(source.directory, directory)
    && successor.ledger == ExtendTree(source.ledger, ledger)
    && RunsFit(successor)
  }

  /** Every row afresh, carrying nothing. */
  ghost predicate WritesFull(snapshot: Forest, successor: Seal,
                             cells: ForestDelta, directory: seq<TableRef>, ledger: seq<TableRef>) {
    && DirectoryChunks(directory, cells.directory) && LedgerChunks(ledger, cells.ledger)
    && IsCheckpointCells(cells, snapshot)
    && successor.directory == ExtendTree(EMPTY_TREE, directory)
    && successor.ledger == ExtendTree(EMPTY_TREE, ledger)
  }

  /** What checkpoint preparation builds: the delta on top of the source's runs
      while that stays inside the bootstrap bounds, or every row afresh. */
  ghost predicate PreparesTables(source: Seal, base: Forest, snapshot: Forest, successor: Seal, attempt: AttemptId) {
    && PlanBootstrapSources(successor).Some?
    && exists cells: ForestDelta, directory: seq<TableRef>, ledger: seq<TableRef> ::
         && Minted(directory, ledger, successor.generation, attempt)
         && (|| AppendsDelta(source, base, snapshot, successor, cells, directory, ledger)
             || WritesFull(snapshot, successor, cells, directory, ledger))
  }

  lemma {:induction false} DirectoryChunksRun(tables: seq<TableRef>, rows: seq<(StreamPath, DirectoryEntry)>)
    requires DirectoryChunks(tables, rows) && PathsAscend(rows)
    ensures DirectoryRun(tables) && AllDirectoryRows(TailSources(tables)) == rows
    ensures tables != [] ==> rows != [] && FirstPath(tables[0].content) == rows[0].0
    decreases |tables|
  {
    if tables != [] {
      var first := tables[0].content.directoryRows;
      assert rows == first + rows[|first|..];
      assert PathsAscend(first);
      assert PathsAscend(rows[|first|..]);
      DirectoryChunksRun(tables[1..], rows[|first|..]);
      assert TailSources(tables)[1..] == TailSources(tables[1..]);
      if |tables| > 1 {
        assert Less(rows[|first| - 1].0, rows[|first|].0);
      }
    }
  }

  lemma {:induction false} LedgerChunksRun(tables: seq<TableRef>, rows: seq<(StreamUid, LedgerCell)>)
    requires LedgerChunks(tables, rows) && UidsAscend(rows)
    ensures LedgerRun(tables) && AllLedgerRows(TailSources(tables)) == rows
    ensures tables != [] ==> rows != [] && FirstUid(tables[0].content) == rows[0].0
    decreases |tables|
  {
    if tables != [] {
      var first := tables[0].content.ledgerRows;
      assert rows == first + rows[|first|..];
      assert UidsAscend(first);
      assert UidsAscend(rows[|first|..]);
      LedgerChunksRun(tables[1..], rows[|first|..]);
      assert TailSources(tables)[1..] == TailSources(tables[1..]);
      if |tables| > 1 {
        assert rows[|first| - 1].0 < rows[|first|].0;
      }
    }
  }

  /** The rows of a run do not depend on the planning flag of its first table. */
  lemma RunRows(tables: seq<TableRef>)
    ensures AllDirectoryRows(RunSources(SortedRun(tables))) == AllDirectoryRows(TailSources(tables))
    ensures AllLedgerRows(RunSources(SortedRun(tables))) == AllLedgerRows(TailSources(tables))
  {
    if tables != [] {
      assert RunSources(SortedRun(tables))[1..] == TailSources(tables[1..]);
      assert TailSources(tables)[1..] == TailSources(tables[1..]);
    }
  }

  /** A run on top overrides what the carried tree holds. */
  lemma ExtendOverrides(carried: TreeVersion, tables: seq<TableRef>)
    ensures TreeEntries(ExtendTree(carried, tables)) ==
      TreeEntries(carried) + RowsMap(AllDirectoryRows(TailSources(tables)))
    ensures TreeCells(ExtendTree(carried, tables)) == TreeCells(carried) + RowsMap(AllLedgerRows(TailSources(tables)))
  {
    RunRows(tables);
    hide RowsMap, AllDirectoryRows, AllLedgerRows, RunSources;
    if tables == [] {
      NoRows<StreamPath, DirectoryEntry>();
      NoRows<StreamUid, LedgerCell>();
      NoSources();
      assert TreeEntries(carried) + map[] == TreeEntries(carried);
      assert TreeCells(carried) + map[] == TreeCells(carried);
    } else {
      var runs := ExtendTree(carried, tables).runs;
      assert runs[1..] == carried.runs;
      var below, top := TreeSources(carried.runs), RunSources(runs[0]);
      AllRowsConcat(below, top);
      RowsMapConcat(AllDirectoryRows(below), AllDirectoryRows(top));
      RowsMapConcat(AllLedgerRows(below), AllLedgerRows(top));
    }
  }

  lemma NoSources()
    ensures AllDirectoryRows(TailSources([])) == [] && AllLedgerRows(TailSources([])) == []
  {
  }

  lemma ExtendKeepsRuns(carried: TreeVersion, tables: seq<TableRef>)
    ensures DirectoryRuns(carried.runs) && DirectoryRun(tables) ==> DirectoryRuns(ExtendTree(carried, tables).runs)
    ensures LedgerRuns(carried.runs) && LedgerRun(tables) ==> LedgerRuns(ExtendTree(carried, tables).runs)
  {
    hide DirectoryRun, LedgerRun;
  }

  lemma ExtendDirectory(carried: TreeVersion, tables: seq<TableRef>, rows: seq<(StreamPath, DirectoryEntry)>)
    requires DirectoryRuns(carried.runs) && DirectoryChunks(tables, rows) && PathsAscend(rows)
    ensures DirectoryRuns(ExtendTree(carried, tables).runs)
    ensures TreeEntries(ExtendTree(carried, tables)) ==
      TreeEntries(carried) + RowsMap(rows)
  {
    hide *;
    DirectoryChunksRun(tables, rows);
    ExtendKeepsRuns(carried, tables);
    ExtendOverrides(carried, tables);
  }

  lemma ExtendLedger(carried: TreeVersion, tables: seq<TableRef>, rows: seq<(StreamUid, LedgerCell)>)
    requires LedgerRuns(carried.runs) && LedgerChunks(tables, rows) && UidsAscend(rows)
    ensures LedgerRuns(ExtendTree(carried, tables).runs)
    ensures TreeCells(ExtendTree(carried, tables)) == TreeCells(carried) + RowsMap(rows)
  {
    hide *;
    LedgerChunksRun(tables, rows);
    ExtendKeepsRuns(carried, tables);
    ExtendOverrides(carried, tables);
  }

  lemma LedgerUidsWithin(forest: Forest)
    requires Complete(forest)
    ensures UidsWithin(forest.ledger.Keys, |forest.directory|)
  {
    forall uid | uid in forest.ledger
      ensures uid <= |forest.directory|
    {
      assert uid in LiveUids(forest.directory);
    }
  }

  lemma DeltaUidsWithin(base: Forest, snapshot: Forest)
    requires Complete(base) && Complete(snapshot) && base.directory.Keys <= snapshot.directory.Keys
    ensures UidsWithin(ChangedCells(base, snapshot).Keys, |snapshot.directory|)
    ensures |base.directory| <= |snapshot.directory|
  {
    LedgerUidsWithin(base);
    LedgerUidsWithin(snapshot);
    SubsetSize(base.directory.Keys, snapshot.directory.Keys);
    assert |base.directory.Keys| == |base.directory| && |snapshot.directory.Keys| == |snapshot.directory|;
  }

  lemma DeltaHolds(source: Seal, base: Forest, snapshot: Forest, successor: Seal, cells: ForestDelta,
                   directory: seq<TableRef>, ledger: seq<TableRef>)
    requires SealHolds(source, base) && Complete(snapshot) && base.directory.Keys <= snapshot.directory.Keys
    requires PlanBootstrapSources(successor).Some?
    requires AppendsDelta(source, base, snapshot, successor, cells, directory, ledger)
    ensures SealHolds(successor, snapshot)
  {
    hide DirectoryRuns, LedgerRuns, PlanBootstrapSources, Complete, TreeEntries, TreeCells, Overlay, ExtendTree,
      ChangedCells, ChangedEntries, DirectoryChunks, LedgerChunks, RowsMap, PathsAscend, UidsAscend;
    DeltaRoundTrip(base, snapshot, cells);
    DeltaUidsWithin(base, snapshot);
    OverlayTwice(map[], TreeCells(source.ledger), RowsMap(cells.ledger));
    ExtendDirectory(source.directory, directory, cells.directory);
    ExtendLedger(source.ledger, ledger, cells.ledger);
  }

  lemma EmptyTreeHoldsNothing()
    ensures TreeEntries(EMPTY_TREE) == map[] && TreeCells(EMPTY_TREE) == map[]
    ensures DirectoryRuns(EMPTY_TREE.runs) && LedgerRuns(EMPTY_TREE.runs)
  {
    assert TreeSources([]) == [];
  }

  lemma FullHolds(snapshot: Forest, successor: Seal, cells: ForestDelta,
                  directory: seq<TableRef>, ledger: seq<TableRef>)
    requires Complete(snapshot) && PlanBootstrapSources(successor).Some?
    requires WritesFull(snapshot, successor, cells, directory, ledger)
    ensures SealHolds(successor, snapshot)
  {
    hide DirectoryRuns, LedgerRuns, PlanBootstrapSources, Complete, TreeEntries, TreeCells, Overlay, ExtendTree,
      DirectoryChunks, LedgerChunks, RowsMap, PathsAscend, UidsAscend;
    CellsRoundTrip(snapshot, cells);
    LedgerUidsWithin(snapshot);
    EmptyTreeHoldsNothing();
    assert map[] + RowsMap(cells.ledger) == RowsMap(cells.ledger);
    assert RowsMap(cells.ledger).Keys == snapshot.ledger.Keys;
    ExtendDirectory(EMPTY_TREE, directory, cells.directory);
    ExtendLedger(EMPTY_TREE, ledger, cells.ledger);
  }

  /** A prepared checkpoint holds exactly the snapshot it was prepared from. */
  lemma PreparationHolds(source: Seal, base: Forest, snapshot: Forest, successor: Seal, attempt: AttemptId)
    requires SealHolds(source, base) && Complete(snapshot) && base.directory.Keys <= snapshot.directory.Keys
    requires PreparesTables(source, base, snapshot, successor, attempt)
    ensures SealHolds(successor, snapshot)
  {
    hide SealHolds, Complete, AppendsDelta, WritesFull, PlanBootstrapSources, Minted;
    var cells: ForestDelta, directory: seq<TableRef>, ledger: seq<TableRef> :|
      && Minted(directory, ledger, successor.generation, attempt)
      && (|| AppendsDelta(source, base, snapshot, successor, cells, directory, ledger)
          || WritesFull(snapshot, successor, cells, directory, ledger));
    if AppendsDelta(source, base, snapshot, successor, cells, directory, ledger) {
      DeltaHolds(source, base, snapshot, successor, cells, directory, ledger);
    } else {
      FullHolds(snapshot, successor, cells, directory, ledger);
    }
  }

  // ------------------------------------------------------- deltas along a log

  lemma {:induction false} SuffixKeepsForest(base: Forest, log: seq<WalObject>, from: nat)
    requires from <= |log| && Complete(base) && FoldSuffix(base, log, from).Some?
    ensures base.directory.Keys <= FoldSuffix(base, log, from).value.directory.Keys
    ensures Complete(FoldSuffix(base, log, from).value)
    decreases |log|
  {
    hide Complete, FoldFacts;
    if from < |log| {
      SuffixKeepsForest(base, log[..|log| - 1], from);
      var before := FoldSuffix(base, log[..|log| - 1], from).value;
      FoldFactsKeepPaths(before, |log|, BodyFacts(log[|log| - 1].body));
      FoldFactsKeepComplete(before, |log|, BodyFacts(log[|log| - 1].body));
    }
  }

  /** For any forest reached from a base by folding any RUNs: the base's full
      cells overlaid by the delta rebuild exactly that forest, and it is one the
      validating constructor accepts. */
  lemma DeltaRebuilds(base: Forest, log: seq<WalObject>, from: nat, after: Forest, cells: ForestDelta,
                      delta: ForestDelta)
    requires from <= |log| && Complete(base) && FoldSuffix(base, log, from) == Some(after)
    requires IsCheckpointCells(cells, base) && IsDeltaSince(delta, after, base)
    ensures RowsMap(cells.directory) + RowsMap(delta.directory) == after.directory
    ensures Overlay(Overlay(map[], RowsMap(cells.ledger)), RowsMap(delta.ledger)) == after.ledger
    ensures Complete(after)
  {
    hide Complete, FoldSuffix, RowsMap, Overlay, PathsAscend, UidsAscend, ChangedCells, ChangedEntries;
    SuffixKeepsForest(base, log, from);
    CellsRoundTrip(base, cells);
    DeltaRoundTrip(base, after, delta);
    assert map[] + RowsMap(cells.directory) == RowsMap(cells.directory);
  }

  /** One fresh Directory table of the rows, if there are any. */
  function FreshDirectory(rows: seq<(StreamPath, DirectoryEntry)>, generation: nat, attempt: AttemptId): seq<TableRef> {
    if rows == [] then []
    else [TableRef(TableObjectId(generation, attempt, 0, StoreKind.Directory), 1, DirectoryTable(rows))]
  }

  function FreshLedger(rows: seq<(StreamUid, LedgerCell)>, generation: nat, attempt: AttemptId,
                       ordinal: nat): seq<TableRef> {
    if rows == [] then []
    else [TableRef(TableObjectId(generation, attempt, ordinal, StoreKind.Ledger), 1, LedgerTable(rows))]
  }

  /** Whatever the snapshot, there is a preparation of it. */
  lemma PreparationExists(source: Seal, base: Forest, snapshot: Forest, attempt: AttemptId) returns (successor: Seal)
    ensures PreparesTables(source, base, snapshot, successor, attempt)
    ensures successor.generation == source.generation + 1
  {
    var directory := DirectorySpelling(snapshot.directory);
    var ledger := CellSpelling(map uid | uid in snapshot.ledger :: Value(snapshot.ledger[uid]));
    var generation := source.generation + 1;
    var d := FreshDirectory(directory, generation, attempt);
    var l := FreshLedger(ledger, generation, attempt, |d|);
    successor := source.(generation := generation,
                         directory := ExtendTree(EMPTY_TREE, d), ledger := ExtendTree(EMPTY_TREE, l));
    OneChunk(directory, ledger, d, l);
    SmallPlan(successor, d, l);
    assert Minted(d, l, generation, attempt);
    assert WritesFull(snapshot, successor, ForestDelta(directory, ledger), d, l);
  }

  /** And there is a delta of it to append to any source, which is a preparation
      whenever the longer manifest stays inside the run and bootstrap bounds. */
  lemma DeltaPreparationExists(source: Seal, base: Forest, snapshot: Forest, attempt: AttemptId)
    returns (successor: Seal, cells: ForestDelta, d: seq<TableRef>, l: seq<TableRef>)
    ensures IsDeltaSince(cells, snapshot, base) && Minted(d, l, successor.generation, attempt)
    ensures successor.generation == source.generation + 1
    ensures successor.directory == ExtendTree(source.directory, d) && successor.ledger == ExtendTree(source.ledger, l)
    ensures RunsFit(successor) && PlanBootstrapSources(successor).Some? ==>
      PreparesTables(source, base, snapshot, successor, attempt)
  {
    var directory := DirectorySpelling(ChangedEntries(base, snapshot));
    var ledger := CellSpelling(ChangedCells(base, snapshot));
    cells := ForestDelta(directory, ledger);
    var generation := source.generation + 1;
    d := FreshDirectory(directory, generation, attempt);
    l := FreshLedger(ledger, generation, attempt, |d|);
    successor := source.(generation := generation,
                         directory := ExtendTree(source.directory, d), ledger := ExtendTree(source.ledger, l));
    OneChunk(directory, ledger, d, l);
    assert Minted(d, l, generation, attempt);
    assert RunsFit(successor) ==> AppendsDelta(source, base, snapshot, successor, cells, d, l);
  }

  lemma OneChunk(directory: seq<(StreamPath, DirectoryEntry)>, ledger: seq<(StreamUid, LedgerCell)>,
                 d: seq<TableRef>, l: seq<TableRef>)
    requires directory == [] ==> d == []
    requires directory != [] ==> |d| == 1 && d[0].content == DirectoryTable(directory)
    requires ledger == [] ==> l == []
    requires ledger != [] ==> |l| == 1 && l[0].content == LedgerTable(ledger)
    ensures DirectoryChunks(d, directory) && LedgerChunks(l, ledger)
  {
    if directory != [] {
      assert d[1..] == [] && directory[|directory|..] == [];
    }
    if ledger != [] {
      assert l[1..] == [] && ledger[|ledger|..] == [];
    }
  }

  lemma SmallPlan(seal: Seal, d: seq<TableRef>, l: seq<TableRef>)
    requires |d| <= 1 && |l| <= 1 && (d != [] ==> d[0].objectBytes == 1) && (l != [] ==> l[0].objectBytes == 1)
    requires seal.directory == ExtendTree(EMPTY_TREE, d) && seal.ledger == ExtendTree(EMPTY_TREE, l)
    ensures PlanBootstrapSources(seal).Some?
  {
    OneRun(d);
    OneRun(l);
    var sources := SealSources(seal);
    if d != [] && l != [] {
      assert sources == [PlannedTable(d[0], true), PlannedTable(l[0], true)];
      assert sources[1..] == [PlannedTable(l[0], true)] && sources[1..][1..] == [];
      assert TotalBytes(sources[1..]) == l[0].objectBytes + TotalBytes([]);
    } else if d != [] {
      assert sources == [PlannedTable(d[0], true)] && sources[1..] == [];
      assert TotalBytes(sources) == sources[0].table.objectBytes + TotalBytes([]);
    } else if l != [] {
      assert sources == [PlannedTable(l[0], true)] && sources[1..] == [];
      assert TotalBytes(sources) == sources[0].table.objectBytes + TotalBytes([]);
    }
  }

  lemma OneRun(tables: seq<TableRef>)
    requires |tables| <= 1
    ensures TreeSources(ExtendTree(EMPTY_TREE, tables).runs) ==
      if tables == [] then [] else [PlannedTable(tables[0], true)]
  {
    if tables != [] {
      var runs := [SortedRun(tables)] + [];
      assert runs[1..] == [] && tables[1..] == [];
      assert TreeSources([]) == [];
    }
  }
}
