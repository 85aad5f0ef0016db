/** Sorted rows: maps spelled out in key order, overlays and deltas. */
module Rows {
  import opened Common
  import opened Domain
  import opened Forests

  /** The map a row sequence writes, later rows overwriting earlier ones. */
  function RowsMap<K, V>(rows: seq<(K, V)>): map<K, V> {
    if rows == [] then map[]
    else RowsMap(rows[..|rows| - 1])[rows[|rows| - 1].0 := rows[|rows| - 1].1]
  }

  function Keys<K, V>(rows: seq<(K, V)>): set<K> { set i | 0 <= i < |rows| :: rows[i].0 }

  lemma {:induction false} RowsMapPush<K, V>(rows: seq<(K, V)>, row: (K, V))
    ensures RowsMap(rows + [row]) == RowsMap(rows)[row.0 := row.1]
  {
    assert (rows + [row])[..|rows + [row]| - 1] == rows;
  }

  lemma {:induction false} RowsMapConcat<K, V>(a: seq<(K, V)>, b: seq<(K, V)>)
    ensures RowsMap(a + b) == RowsMap(a) + RowsMap(b)
    decreases |b|
  {
    if b == [] {
      assert a + b == a;
    } else {
      var front := b[..|b| - 1];
      RowsMapConcat(a, front);
      assert a + b == (a + front) + [b[|b| - 1]];
      RowsMapPush(a + front, b[|b| - 1]);
    }
  }

  lemma {:induction false} RowsMapKeys<K, V>(rows: seq<(K, V)>)
    ensures RowsMap(rows).Keys == Keys(rows)
  {
    if rows != [] {
      var front := rows[..|rows| - 1];
      RowsMapKeys(front);
      assert Keys(rows) == Keys(front) + {rows[|rows| - 1].0};
    }
  }

  /** Rows that agree with a map and reach each of its keys write that map. */
  lemma {:induction false} RowsOfMap<K, V>(rows: seq<(K, V)>, m: map<K, V>)
    requires forall i :: 0 <= i < |rows| ==> rows[i].0 in m && m[rows[i].0] == rows[i].1
    ensures forall k :: k in RowsMap(rows) ==> k in m && RowsMap(rows)[k] == m[k]
    ensures m.Keys <= Keys(rows) ==> RowsMap(rows) == m
  {
    if rows != [] {
      RowsOfMap(rows[..|rows| - 1], m);
    }
    RowsMapKeys(rows);
  }

  /** A Ledger after a set of cells: values written, deleted uids gone. */
  function Overlay(ledger: map<StreamUid, StreamRecord>, cells: map<StreamUid,
                   LedgerCell>): map<StreamUid, StreamRecord> {
    map uid | uid in ledger.Keys + cells.Keys && (uid in cells ==> cells[uid].Value?)
      :: if uid in cells then cells[uid].record else ledger[uid]
  }

  predicate PathsAscend(rows: seq<(StreamPath, DirectoryEntry)>) {
    forall i, j :: 0 <= i < j < |rows| ==> Less(rows[i].0, rows[j].0)
  }

  predicate UidsAscend(rows: seq<(StreamUid, LedgerCell)>) {
    forall i, j :: 0 <= i < j < |rows| ==> rows[i].0 < rows[j].0
  }

  // ------------------------------------------------------- maps in key order

  /** The greatest path of a nonempty set. */
  lemma {:induction false} GreatestPath(paths: set<StreamPath>) returns (greatest: StreamPath)
    requires paths != {}
    ensures greatest in paths && forall path :: path in paths && path != greatest ==> Less(path, greatest)
  {
    var pick :| pick in paths;
    var rest := paths - {pick};
    assert paths == rest + {pick};
    if rest == {} {
      greatest := pick;
    } else {
      var other := GreatestPath(rest);
      LessTrichotomy(pick, other);
      if Less(other, pick) {
        greatest := pick;
        forall path | path in rest ensures Less(path, pick) {
          if path != other { LessTransitive(path, other, pick); }
        }
      } else {
        greatest := other;
      }
    }
  }

  lemma {:induction false} GreatestUid(uids: set<StreamUid>) returns (greatest: StreamUid)
    requires uids != {}
    ensures greatest in uids && forall uid :: uid in uids && uid != greatest ==> uid < greatest
  {
    var pick :| pick in uids;
    var rest := uids - {pick};
    assert uids == rest + {pick};
    if rest == {} {
      greatest := pick;
    } else {
      var other := GreatestUid(rest);
      greatest := if pick < other then other else pick;
    }
  }

  /** Rows that spell out a map in ascending key order. */
  ghost predicate SpellsDirectory(rows: seq<(StreamPath, DirectoryEntry)>, m: map<StreamPath, DirectoryEntry>) {
    PathsAscend(rows) && RowsMap(rows) == m
  }

  ghost predicate SpellsCells(rows: seq<(StreamUid, LedgerCell)>, m: map<StreamUid, LedgerCell>) {
    UidsAscend(rows) && RowsMap(rows) == m
  }

  lemma {:induction false} DirectorySpelling(m: map<StreamPath, DirectoryEntry>)
    returns (rows: seq<(StreamPath, DirectoryEntry)>)
    ensures SpellsDirectory(rows, m)
    decreases |m|
  {
    if m == map[] {
      rows := [];
    } else {
      var last := GreatestPath(m.Keys);
      var rest := m - {last};
      assert rest.Keys == m.Keys - {last};
      assert |rest.Keys| < |m.Keys|;
      var front := DirectorySpelling(rest);
      rows := front + [(last, m[last])];
      RowsMapPush(front, (last, m[last]));
      RowsMapKeys(front);
      assert forall i :: 0 <= i < |front| ==> front[i].0 in Keys(front);
      assert rest[last := m[last]] == m;
    }
  }

  lemma {:induction false} CellSpelling(m: map<StreamUid, LedgerCell>) returns (rows: seq<(StreamUid, LedgerCell)>)
    ensures SpellsCells(rows, m)
    decreases |m|
  {
    if m == map[] {
      rows := [];
    } else {
      var last := GreatestUid(m.Keys);
      var rest := m - {last};
      assert rest.Keys == m.Keys - {last};
      assert |rest.Keys| < |m.Keys|;
      var front := CellSpelling(rest);
      rows := front + [(last, m[last])];
      RowsMapPush(front, (last, m[last]));
      RowsMapKeys(front);
      assert forall i :: 0 <= i < |front| ==> front[i].0 in Keys(front);
      assert rest[last := m[last]] == m;
    }
  }

  // ------------------------------------------------------------------- deltas

  datatype ForestDelta = ForestDelta(
    directory: seq<(StreamPath, DirectoryEntry)>,
    ledger: seq<(StreamUid, LedgerCell)>)

  function ChangedEntries(base: Forest, after: Forest): map<StreamPath, DirectoryEntry> {
    map path | path in after.directory
             && (path !in base.directory || base.directory[path] != after.directory[path])
      :: after.directory[path]
  }

  function ChangedCells(base: Forest, after: Forest): map<StreamUid, LedgerCell> {
    map uid | uid in base.ledger.Keys + after.ledger.Keys
            && (uid in base.ledger && uid in after.ledger ==> base.ledger[uid] != after.ledger[uid])
      :: if uid in after.ledger then Value(after.ledger[uid]) else Delete
  }

  /** Rows that transform `base` into `after`, in key order. */
  ghost predicate IsDeltaSince(delta: ForestDelta, after: Forest, base: Forest) {
    && SpellsDirectory(delta.directory, ChangedEntries(base, after))
    && SpellsCells(delta.ledger, ChangedCells(base, after))
  }

  /** Every resident row as a cell, in key order: a full checkpoint base. */
  ghost predicate IsCheckpointCells(delta: ForestDelta, after: Forest) {
    && SpellsDirectory(delta.directory, after.directory)
    && SpellsCells(delta.ledger, map uid | uid in after.ledger :: Value(after.ledger[uid]))
  }

  /** A delta always exists and, because occupancy is permanent, merging it
      over the base rebuilds the later forest exactly. */
  lemma DeltaRoundTrip(base: Forest, after: Forest, delta: ForestDelta)
    requires base.directory.Keys <= after.directory.Keys
    requires IsDeltaSince(delta, after, base)
    ensures base.directory + RowsMap(delta.directory) == after.directory
    ensures Overlay(base.ledger, RowsMap(delta.ledger)) == after.ledger
  {
    assert Overlay(base.ledger, ChangedCells(base, after)).Keys == after.ledger.Keys;
  }

  lemma CellsRoundTrip(after: Forest, delta: ForestDelta)
    requires IsCheckpointCells(delta, after)
    ensures map[] + RowsMap(delta.directory) == after.directory
    ensures Overlay(map[], RowsMap(delta.ledger)) == after.ledger
  {
    assert Overlay(map[], RowsMap(delta.ledger)).Keys == after.ledger.Keys;
  }
}
